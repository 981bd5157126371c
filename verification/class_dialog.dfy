/**
 * The rules of the class editing dialog: the class-name check and
 * normalisation, the four language radio buttons and the guard that keeps a
 * derived class in its ancestor's language, and the decision taken when an
 * already saved class is renamed.
 *
 * Every dialog answer is an input; foreign calls (loading an ancestor,
 * regenerating under a new name, decoding a language name) become inputs
 * holding their outcome.
 */
module ClassDialog {
  import opened Strings
  import opened Swing
  import opened Languages

  // ---------------------------------------------------------------------
  // Class name check
  // ---------------------------------------------------------------------

  /** The delimiters of a java.util.StringTokenizer built without a delimiter set. */
  predicate IsDelimiter(c: char)
  {
    c == ' ' || c == '\t' || c == '\n' || c == '\r' || c == '\U{000C}'
  }

  /** A lower-cased character the class name may hold. */
  predicate IsNameChar(c: char)
  {
    IsLowerLetter(c) || IsDigit(c) || c == '_'
  }

  /** The two checks made on the lower-cased name before it is normalised. */
  predicate ValidClassName(text: string)
  {
    |text| > 0 &&
    IsLowerLetter(ToLower(text[0])) &&
    forall i :: 0 <= i < |text| ==> IsNameChar(ToLower(text[i]))
  }

  /** Length of the token that starts at the beginning of `s`. */
  function TokenLength(s: string): (n: nat)
    ensures n <= |s|
    ensures forall i :: 0 <= i < n ==> !IsDelimiter(s[i])
    ensures n < |s| ==> IsDelimiter(s[n])
  {
    if |s| == 0 || IsDelimiter(s[0]) then 0 else 1 + TokenLength(s[1..])
  }

  /** The tokens a StringTokenizer hands out for `s`, in order. */
  function Tokens(s: string): (ts: seq<string>)
    ensures forall k :: 0 <= k < |ts| ==> |ts[k]| > 0
    decreases |s|
  {
    if |s| == 0 then []
    else if IsDelimiter(s[0]) then Tokens(s[1..])
    else
      var n := TokenLength(s);
      [s[..n]] + Tokens(s[n..])
  }

  /** One token with its first character upper-cased. */
  function Capitalize(token: string): string
  {
    if |token| > 1 then [ToUpper(token[0])] + token[1..] else UpperString(token)
  }

  /** The capitalised tokens, concatenated. */
  function JoinCapitalized(ts: seq<string>): string
  {
    if ts == [] then [] else JoinCapitalized(ts[..|ts| - 1]) + Capitalize(ts[|ts| - 1])
  }

  /** Joining one more token appends that token, capitalised. */
  lemma JoinCapitalizedStep(ts: seq<string>, k: int)
    requires 0 <= k < |ts|
    ensures JoinCapitalized(ts[..k + 1]) == JoinCapitalized(ts[..k]) + Capitalize(ts[k])
  {
    assert ts[..k + 1][..k] == ts[..k];
  }

  /** A name that passed both checks holds no delimiter, so it is a single token. */
  lemma {:induction false} ValidNameIsOneToken(text: string)
    requires ValidClassName(text)
    ensures Tokens(text) == [text]
  {
    assert !IsDelimiter(text[0]);
    var n := TokenLength(text);
    if n < |text| {
      assert false;
    }
    assert text[..n] == text && text[n..] == [];
    assert Tokens(text) == [text[..n]] + Tokens(text[n..]);
  }

  /**
   * What the class-name check answers for the text of the name field: no
   * name (null) when the text is empty, does not start with a letter or holds
   * a character other than a letter, a digit or '_'; otherwise the text with
   * its first character upper-cased.
   */
  function ClassNameResult(text: string): (r: Option<string>)
    requires IsAscii(text)
    ensures r.None? <==> !ValidClassName(text)
    ensures |text| == 0 ==> r.None?
    ensures r.Some? ==>
      |r.value| == |text| && r.value[0] == ToUpper(text[0]) && r.value[1..] == text[1..]
  {
    if !ValidClassName(text) then None
    else
      var name := JoinCapitalized(Tokens(text));
      ValidNameIsOneToken(text);
      assert JoinCapitalized([text]) == JoinCapitalized([]) + Capitalize(text);
      if |name| == 0 then None else Some(name)
  }

  /** The check is idempotent: a name it produced is accepted and left as it is. */
  lemma CheckClassNameIdempotent(text: string)
    requires IsAscii(text)
    requires ClassNameResult(text).Some?
    ensures IsAscii(ClassNameResult(text).value)
    ensures ClassNameResult(ClassNameResult(text).value) == ClassNameResult(text)
  {
    var name := ClassNameResult(text).value;
    assert name == [ToUpper(text[0])] + text[1..];
    forall i | 0 <= i < |name|
      ensures name[i] as int < 128 && IsNameChar(ToLower(name[i]))
    {
      if i > 0 {
        assert name[i] == text[i];
      }
    }
    assert ValidClassName(name);
    var again := ClassNameResult(name).value;
    assert again == [ToUpper(name[0])] + name[1..];
  }

  /** The character checks of checkClassName, made on the lower-cased text. */
  method CheckNameChars(text: string) returns (ok: bool)
    requires IsAscii(text)
    ensures ok <==> ValidClassName(text)
  {
    if |text| == 0 {
      return false;
    }
    var name := LowerString(text);
    if !IsLowerLetter(name[0]) {
      return false;
    }
    for i := 0 to |name|
      invariant forall j :: 0 <= j < i ==> IsNameChar(ToLower(text[j]))
    {
      if !IsNameChar(name[i]) {
        assert !IsNameChar(ToLower(text[i]));
        return false;
      }
    }
    return true;
  }

  /** The token loop of checkClassName: each token capitalised, then appended. */
  method JoinTokens(text: string) returns (name: string)
    ensures name == JoinCapitalized(Tokens(text))
  {
    var tokens := Tokens(text);
    name := "";
    var k := 0;
    while k < |tokens|
      invariant 0 <= k <= |tokens|
      invariant name == JoinCapitalized(tokens[..k])
    {
      var tmp := tokens[k];
      if |tmp| > 1 {
        name := name + ([ToUpper(tmp[0])] + tmp[1..]);
      } else {
        name := name + UpperString(tmp);
      }
      JoinCapitalizedStep(tokens, k);
      k := k + 1;
    }
    assert tokens[..k] == tokens;
  }

  /**
   * ClassDialog.checkClassName on the text of the name field: the character
   * checks on the lower-cased text, then the token loop that builds the
   * normalised name.
   */
  method CheckClassName(text: string) returns (r: Option<string>)
    requires IsAscii(text)
    ensures r == ClassNameResult(text)
  {
    var ok := CheckNameChars(text);
    if !ok {
      return None;
    }
    var name := JoinTokens(text);
    if |name| == 0 {
      return None;
    }
    return Some(name);
  }

  // ---------------------------------------------------------------------
  // Language radio buttons
  // ---------------------------------------------------------------------

  /** The button states with exactly the button of code `k` selected (none when `k` is out of range). */
  function Selection(k: int): (s: seq<bool>)
    ensures |s| == LanguageCount
  {
    seq(LanguageCount, i requires 0 <= i < LanguageCount => i == k)
  }

  predicate ExactlyOneSelected(s: seq<bool>)
  {
    exists k :: 0 <= k < |s| && s[k] && forall j :: 0 <= j < |s| && s[j] ==> j == k
  }

  /** The button setLanguage selects for a decoded language code: Cpp for an unknown language. */
  function EffectiveCode(code: int): (k: int)
    ensures code < 0 ==> k == Code(Cpp)
    ensures code >= 0 ==> k == code
  {
    if code < 0 then Code(Cpp) else code
  }

  lemma SelectionHasOne(k: int)
    requires 0 <= k < LanguageCount
    ensures ExactlyOneSelected(Selection(k))
    ensures forall j :: 0 <= j < LanguageCount ==> (Selection(k)[j] <==> j == k)
  {
    assert Selection(k)[k];
  }

  /**
   * The language getInputs records for a button state: PythonHL, then
   * Python, then Java by priority, and Cpp when none of them is selected.
   */
  function InputLanguage(s: seq<bool>): (l: Language)
    requires |s| == LanguageCount
    ensures l == PythonHL <==> s[Code(PythonHL)]
    ensures l == Python <==> !s[Code(PythonHL)] && s[Code(Python)]
    ensures l == Java <==> !s[Code(PythonHL)] && !s[Code(Python)] && s[Code(Java)]
    ensures l == Cpp <==> !s[Code(PythonHL)] && !s[Code(Python)] && !s[Code(Java)]
  {
    if s[Code(PythonHL)] then PythonHL
    else if s[Code(Python)] then Python
    else if s[Code(Java)] then Java
    else Cpp
  }

  /** With exactly one button selected, getInputs records that button's language. */
  lemma InputLanguageOfSelection(code: int)
    requires code < LanguageCount
    ensures FromCode(EffectiveCode(code)).Some?
    ensures InputLanguage(Selection(EffectiveCode(code))) == FromCode(EffectiveCode(code)).value
  {
  }

  /**
   * The button states after a click on button `b`, as languageActionPerformed
   * leaves them: the clicked button is forced on, then a derived class turns
   * it off again and keeps everything else, while a class without ancestors
   * selects exactly the clicked language. `s` is the state the click handler
   * sees, after Swing has toggled the clicked button.
   */
  function LanguageClick(s: seq<bool>, b: int, derived: bool): (r: seq<bool>)
    requires |s| == LanguageCount && 0 <= b < LanguageCount
    ensures |r| == LanguageCount
    ensures derived ==> !r[b] && forall i :: 0 <= i < LanguageCount && i != b ==> r[i] == s[i]
    ensures !derived ==> ExactlyOneSelected(r) && r[b]
  {
    var forced := if !s[b] then s[b := true] else s;
    if derived then forced[b := false]
    else
      SelectionHasOne(b);
      Selection(b)
  }

  /**
   * Finding, as written: on a derived class whose inherited button is the only
   * one selected, clicking that button makes Swing deselect it before the
   * handler runs; the handler forces it on and then off, so no button is left
   * and getInputs records Cpp whatever the ancestor's language.
   */
  lemma ReclickOnDerivedClassDropsLanguage(l: Language)
    requires l != Cpp
    ensures InputLanguage(Selection(Code(l))) == l
    ensures InputLanguage(LanguageClick(Selection(Code(l))[Code(l) := false], Code(l), true)) == Cpp
  {
  }

  /**
   * The finding is confined to the re-click: on a derived class a click on
   * any other button is undone alike by the handler as written and by the
   * corrected one.
   */
  lemma OtherButtonClickAgrees(a: int, b: int)
    requires 0 <= a < LanguageCount && 0 <= b < LanguageCount && a != b
    ensures LanguageClick(Selection(a)[b := true], b, true) ==
            LanguageClickKeepingAncestor(Selection(a)[b := true], b, Some(a))
  {
  }

  /**
   * Finding, corrected: a refused click on a derived class restores the
   * ancestor's language instead of only clearing the clicked button.
   */
  function LanguageClickKeepingAncestor(s: seq<bool>, b: int, ancestorCode: Option<int>): (r: seq<bool>)
    requires |s| == LanguageCount && 0 <= b < LanguageCount
    requires ancestorCode.Some? ==> ancestorCode.value < LanguageCount
    ensures |r| == LanguageCount && ExactlyOneSelected(r)
    ensures ancestorCode.None? ==> r[b]
    ensures ancestorCode.Some? ==>
      InputLanguage(r) == FromCode(EffectiveCode(ancestorCode.value)).value
  {
    match ancestorCode
    case None =>
      SelectionHasOne(b);
      Selection(b)
    case Some(code) =>
      SelectionHasOne(EffectiveCode(code));
      InputLanguageOfSelection(code);
      Selection(EffectiveCode(code))
  }

  // ---------------------------------------------------------------------
  // Renaming an already saved class
  // ---------------------------------------------------------------------

  /**
   * The rename dialog is shown only for a class edited from a class tree,
   * with a known original name, already saved (it has a source path), and
   * whose name was changed.
   */
  predicate NeedsRenameConfirmation(hasClassTree: bool, origClassName: Option<string>,
                                    hasSourcePath: bool, className: string)
  {
    hasClassTree && origClassName.Some? && hasSourcePath && className != origClassName.value
  }

  /**
   * ClassDialog.checkClassNameChanged: `choice` is the answer to the
   * "Change Class name / Create new class files / Cancel" dialog and
   * `renamed` what manageClassNameChanged answers when it is called.
   */
  function CheckClassNameChanged(hasClassTree: bool, origClassName: Option<string>,
                                 hasSourcePath: bool, className: string,
                                 choice: int, renamed: bool): (r: bool)
    ensures !NeedsRenameConfirmation(hasClassTree, origClassName, hasSourcePath, className) ==> r
    ensures NeedsRenameConfirmation(hasClassTree, origClassName, hasSourcePath, className) ==>
      (r <==> choice == 1 || (choice == 0 && renamed))
  {
    if !hasClassTree then true
    else if origClassName.None? then true
    else if !hasSourcePath then true
    else if className == origClassName.value then true
    else if choice == 0 then renamed
    else if choice == 1 then true
    else false
  }

  // ---------------------------------------------------------------------
  // The dialog's state
  // ---------------------------------------------------------------------

  /** An ancestor class: its name and the code its language name decodes to. */
  datatype Ancestor = Ancestor(name: string, languageCode: int)

  /**
   * The class handed to the dialog for editing: its name, its language name
   * and the code that name decodes to, its ancestors, and whether it has
   * already been saved (it has a source path).
   */
  datatype EditedClass = EditedClass(name: string, language: string, languageCode: int,
                                     ancestors: seq<Ancestor>, hasSourcePath: bool)

  /** The name a class without one is given when the dialog opens. */
  const NewClassName: string := "New Tango Class"

  class Dialog {
    /** Selection state of the Cpp, Java, Python and PythonHL buttons, indexed by language code. */
    const langBtn: array<bool>
    var ancestors: seq<Ancestor>
    /** Content of the class name text field. */
    var nameText: string
    /** Name and language stored in the edited class. */
    var className: string
    var language: string
    var addInheritanceVisible: bool
    var origClassName: Option<string>
    var hasClassTree: bool
    var hasSourcePath: bool
    /** The modified flag of the class tree the dialog was opened from. */
    var treeModified: bool
    var hasForcedGenerate: bool

    ghost predicate Valid()
      reads this
    {
      langBtn.Length == LanguageCount
    }

    /**
     * A dialog for a new class (`edited` is None) or for an existing one.
     * Only the Cpp button starts selected; an edited class selects its own
     * language and hides the add-inheritance button. A class without a name
     * is named "New Tango Class", while the name field keeps the empty text.
     */
    constructor (hasClassTree: bool, treeModified: bool, edited: Option<EditedClass>)
      ensures Valid() && fresh(langBtn)
      ensures this.hasClassTree == hasClassTree && this.treeModified == treeModified
      ensures edited.None? ==>
        langBtn[..] == Selection(Code(Cpp)) && ancestors == [] && origClassName.None? &&
        nameText == "" && className == NewClassName && language == Name(Cpp) &&
        !hasSourcePath && addInheritanceVisible
      ensures edited.Some? ==>
        langBtn[..] == Selection(EffectiveCode(edited.value.languageCode)) &&
        ancestors == edited.value.ancestors &&
        origClassName == Some(edited.value.name) && nameText == edited.value.name &&
        className == (if edited.value.name == "" then NewClassName else edited.value.name) &&
        language == edited.value.language &&
        hasSourcePath == edited.value.hasSourcePath && !addInheritanceVisible
      ensures !hasForcedGenerate
    {
      langBtn := new bool[LanguageCount](i => i == Code(Cpp));
      this.hasClassTree := hasClassTree;
      this.treeModified := treeModified;
      hasForcedGenerate := false;
      language := Name(Cpp);
      new;
      match edited
      case None =>
        ancestors, origClassName, nameText, className := [], None, "", NewClassName;
        hasSourcePath, addInheritanceVisible := false, true;
        assert langBtn[..] == Selection(Code(Cpp));
      case Some(c) =>
        ancestors, origClassName, nameText, className := c.ancestors, Some(c.name), c.name, c.name;
        language := c.language;
        if |className| == 0 {
          className := NewClassName;
        }
        hasSourcePath, addInheritanceVisible := c.hasSourcePath, false;
        SetLanguage(c.languageCode);
    }

    /** ClassDialog.setLanguage for a decoded language code. */
    method SetLanguage(code: int)
      requires Valid()
      modifies langBtn
      ensures langBtn[..] == Selection(EffectiveCode(code))
      ensures code < LanguageCount ==> ExactlyOneSelected(langBtn[..])
    {
      var langCode := code;
      if langCode < 0 {
        langCode := Code(Cpp);
      }
      for i := 0 to langBtn.Length
        invariant forall j :: 0 <= j < i ==> langBtn[j] == (j == langCode)
      {
        langBtn[i] := i == langCode;
      }
      assert langBtn[..] == Selection(langCode);
      if code < LanguageCount {
        SelectionHasOne(langCode);
      }
    }

    /**
     * ClassDialog.languageActionPerformed for a click on button `b`. The
     * button's label is taken to decode to its own code.
     */
    method LanguageActionPerformed(b: int)
      requires Valid() && 0 <= b < LanguageCount
      modifies langBtn
      ensures langBtn[..] == LanguageClick(old(langBtn[..]), b, |ancestors| > 0)
    {
      if !langBtn[b] {
        langBtn[b] := true;
      }
      if |ancestors| > 0 {
        langBtn[b] := false;
      } else {
        SetLanguage(b);
      }
    }

    /**
     * The successful path of addInheritanceBtnActionPerformed: the loaded
     * ancestor is attached, a typed name is stored in the class, and the
     * buttons take the ancestor's language. `loaded` is None when the file
     * chooser was cancelled, gave a directory, or loading failed.
     */
    method AddInheritance(loaded: Option<Ancestor>)
      requires Valid()
      modifies this, langBtn
      ensures Valid()
      ensures loaded.None? ==>
        ancestors == old(ancestors) && className == old(className) &&
        addInheritanceVisible == old(addInheritanceVisible) && langBtn[..] == old(langBtn[..])
      ensures loaded.Some? ==>
        ancestors == old(ancestors) + [loaded.value] && !addInheritanceVisible &&
        className == (if |nameText| > 0 then nameText else old(className)) &&
        langBtn[..] == Selection(EffectiveCode(loaded.value.languageCode))
      ensures nameText == old(nameText) && language == old(language)
      ensures origClassName == old(origClassName) && hasClassTree == old(hasClassTree) &&
              hasSourcePath == old(hasSourcePath) && treeModified == old(treeModified) &&
              hasForcedGenerate == old(hasForcedGenerate)
    {
      if loaded.Some? {
        var dc := loaded.value;
        ancestors := ancestors + [dc];
        if |nameText| > 0 {
          className := nameText;
        }
        addInheritanceVisible := false;
        SetLanguage(dc.languageCode);
      }
    }

    /** The name and language part of ClassDialog.getInputs. */
    method GetInputs()
      requires Valid()
      modifies this
      ensures className == old(nameText) && language == Name(InputLanguage(langBtn[..]))
      ensures nameText == old(nameText) && ancestors == old(ancestors)
      ensures addInheritanceVisible == old(addInheritanceVisible) &&
              origClassName == old(origClassName) && hasClassTree == old(hasClassTree) &&
              hasSourcePath == old(hasSourcePath) && treeModified == old(treeModified) &&
              hasForcedGenerate == old(hasForcedGenerate)
    {
      className := nameText;
      if langBtn[Code(PythonHL)] {
        language := Name(PythonHL);
      } else if langBtn[Code(Python)] {
        language := Name(Python);
      } else if langBtn[Code(Java)] {
        language := Name(Java);
      } else {
        language := Name(Cpp);
      }
    }

    /**
     * ClassDialog.manageClassNameChanged: `confirm` answers the yes/no
     * dialog and `generated` says whether regenerating under the new name
     * completed without an exception.
     */
    method ManageClassNameChanged(confirm: int, generated: bool) returns (ok: bool)
      requires hasClassTree
      modifies this
      ensures ok <==> confirm == OK_OPTION && generated
      ensures treeModified == (if ok then false else old(treeModified))
      ensures hasForcedGenerate == (ok || old(hasForcedGenerate))
      ensures ancestors == old(ancestors) && langBtn[..] == old(langBtn[..])
      ensures nameText == old(nameText) && className == old(className) &&
              language == old(language) && origClassName == old(origClassName) &&
              addInheritanceVisible == old(addInheritanceVisible) &&
              hasClassTree == old(hasClassTree) && hasSourcePath == old(hasSourcePath)
    {
      if confirm != OK_OPTION {
        return false;
      }
      if !generated {
        return false;
      }
      treeModified := false;
      hasForcedGenerate := true;
      return true;
    }
  }
}
