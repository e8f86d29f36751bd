/** promptForEntitySettings: the prompt sequence that collects an entity's
    settings. The editor's input boxes and quick picks are replaced by a script
    of answers, one per prompt in the order the prompts are shown; `None` is a
    dismissed prompt (the widget yields `undefined`). */
module Settings {
  import opened Js

  const DefaultPrintName := "New Entity"
  const DefaultCategory := "Other"
  const DefaultEntityType := "Prop"
  const DefaultFont := "DermaLarge"

  /** The record handed to createEntity. `entityType` is whatever string the
      type pick produced; `display3DNameText` can stay `undefined`. */
  datatype EntitySettings = EntitySettings(
    className: string,
    printName: string,
    category: string,
    entityType: string,
    show3DName: bool,
    display3DNameText: Option<string>,
    display3DNameFont: string,
    modelPath: string)

  /** A prompt as the user sees it: an input box with its prompt text and
      pre-filled value, or a quick pick with its items and placeholder. */
  datatype Prompt =
    | InputBox(prompt: string, value: Option<string>)
    | QuickPick(items: seq<string>, placeHolder: string)

  const ClassNamePrompt := InputBox("Class Name (required)", None)
  const PrintNamePrompt := InputBox("Print Name (optional)", Some(DefaultPrintName))
  const CategoryPrompt := InputBox("Category (optional)", Some(DefaultCategory))
  const TypePick := QuickPick(["Prop", "Entity"], "Prop / Entity (optional)")
  const Show3DNamePick := QuickPick(["Yes", "No"], "3D Name (optional)")
  const FontPrompt := InputBox("3D Name Font (optional)", Some(DefaultFont))
  const ModelPathPrompt := InputBox("Model Path (optional)", Some(""))

  /** The 3D-name text box is pre-filled with the raw print-name answer. */
  function TextPrompt(printName: Option<string>): Prompt
  {
    InputBox("3D Name Text (optional)", printName)
  }

  /** What the user did with the k-th prompt; past the end of the script every
      prompt counts as dismissed. */
  function Answer(answers: seq<Option<string>>, k: nat): Option<string>
  {
    if k < |answers| then answers[k] else None
  }

  /** The result of the prompt sequence and the prompts it showed, in order. */
  datatype Outcome = Outcome(settings: Option<EntitySettings>, shown: seq<Prompt>)

  /** A record the prompt sequence can produce: a class name is present, and
      every field that has a string default holds a non-empty string. */
  predicate Resolved(s: EntitySettings)
  {
    && s.className != ""
    && s.printName != ""
    && s.category != ""
    && s.entityType != ""
    && s.display3DNameFont != ""
  }

  function PromptForEntitySettings(answers: seq<Option<string>>): (r: Outcome)
    ensures r.settings.None? <==> !Truthy(Answer(answers, 0))
    ensures r.settings.None? ==> r.shown == [ClassNamePrompt]
    ensures r.settings.Some? ==> Resolved(r.settings.value)
    ensures r.settings.Some? ==> r.settings.value.className == Answer(answers, 0).value
    ensures r.settings.Some? ==>
      && |r.shown| == (if r.settings.value.show3DName then 8 else 6)
      && r.shown[..5] == [ClassNamePrompt, PrintNamePrompt, CategoryPrompt, TypePick, Show3DNamePick]
      && r.shown[|r.shown| - 1] == ModelPathPrompt
    ensures r.settings.Some? && r.settings.value.show3DName ==>
      r.shown[5..7] == [TextPrompt(Answer(answers, 1)), FontPrompt]
  {
    var className := Answer(answers, 0);
    if !Truthy(className) then Outcome(None, [ClassNamePrompt])
    else
      var printName := Answer(answers, 1);
      var category := Answer(answers, 2);
      var propOrEntity := Answer(answers, 3);
      var defaultType := OrElse(propOrEntity, DefaultEntityType);
      var display3DName := Answer(answers, 4);
      var show3DName := display3DName == Some("Yes");
      // the 3D-name branch reassigns text and font and shows two more prompts
      var text := if show3DName then Answer(answers, 5) else printName;
      var font := if show3DName then OrElse(Answer(answers, 6), DefaultFont) else DefaultFont;
      var threeD := if show3DName then [TextPrompt(printName), FontPrompt] else [];
      var modelPath := Answer(answers, 5 + |threeD|);
      var settings := EntitySettings(
        className.value,
        OrElse(printName, DefaultPrintName),
        OrElse(category, DefaultCategory),
        defaultType,
        show3DName,
        Or(text, printName),
        OrElse(Some(font), DefaultFont),
        OrElse(modelPath, ""));
      Outcome(Some(settings),
        [ClassNamePrompt, PrintNamePrompt, CategoryPrompt, TypePick, Show3DNamePick] + threeD + [ModelPathPrompt])
  }

  /** Once the class name is missing, no answer to a later prompt matters. */
  lemma CancelIgnoresLaterAnswers(answers: seq<Option<string>>, later: seq<Option<string>>)
    requires answers != [] && !Truthy(answers[0])
    ensures PromptForEntitySettings([answers[0]] + later) == PromptForEntitySettings(answers)
    ensures PromptForEntitySettings(answers) == Outcome(None, [ClassNamePrompt])
  {
    assert Answer([answers[0]] + later, 0) == answers[0];
  }

  /** The outcome is decided by the answers to the prompts it shows: two
      scripts that agree on those give the same outcome. */
  lemma OnlyShownPromptsMatter(a: seq<Option<string>>, b: seq<Option<string>>)
    requires forall k :: 0 <= k < |PromptForEntitySettings(a).shown| ==> Answer(a, k) == Answer(b, k)
    ensures PromptForEntitySettings(a) == PromptForEntitySettings(b)
  {
    assert Answer(a, 0) == Answer(b, 0);
    if Truthy(Answer(a, 0)) {
      var n := |PromptForEntitySettings(a).shown|;
      assert n >= 6;
      assert Answer(a, 1) == Answer(b, 1) && Answer(a, 2) == Answer(b, 2);
      assert Answer(a, 3) == Answer(b, 3) && Answer(a, 4) == Answer(b, 4);
      assert Answer(a, 5) == Answer(b, 5);
      if Answer(a, 4) == Some("Yes") {
        assert Answer(a, 6) == Answer(b, 6) && Answer(a, 7) == Answer(b, 7);
      }
    }
  }

  /** The defaults: an answer that is missing or empty gives way to the
      default, any other answer is kept verbatim; the class name is passed
      through unchanged. */
  lemma DefaultsApplied(answers: seq<Option<string>>)
    requires Truthy(Answer(answers, 0))
    ensures var r := PromptForEntitySettings(answers);
      var s := r.settings.value;
      var modelPath := Answer(answers, |r.shown| - 1);
      && r.settings.Some?
      && s.className == Answer(answers, 0).value
      && (Truthy(Answer(answers, 1)) ==> s.printName == Answer(answers, 1).value)
      && (!Truthy(Answer(answers, 1)) ==> s.printName == "New Entity")
      && (Truthy(Answer(answers, 2)) ==> s.category == Answer(answers, 2).value)
      && (!Truthy(Answer(answers, 2)) ==> s.category == "Other")
      && (Truthy(Answer(answers, 3)) ==> s.entityType == Answer(answers, 3).value)
      && (!Truthy(Answer(answers, 3)) ==> s.entityType == "Prop")
      && (Truthy(modelPath) ==> s.modelPath == modelPath.value)
      && (!Truthy(modelPath) ==> s.modelPath == "")
  {
  }

  /** The 3D-name settings: shown only for an exact "Yes"; without it the font
      is the default and the text is the raw print-name answer (not the
      defaulted print name); with it an empty font falls back to the default
      and an empty text falls back to the raw print-name answer. */
  lemma ThreeDNameResolved(answers: seq<Option<string>>)
    requires Truthy(Answer(answers, 0))
    ensures var s := PromptForEntitySettings(answers).settings.value;
      && (s.show3DName <==> Answer(answers, 4) == Some("Yes"))
      && (!s.show3DName ==> s.display3DNameFont == "DermaLarge" && s.display3DNameText == Answer(answers, 1))
      && (s.show3DName && Truthy(Answer(answers, 6)) ==> s.display3DNameFont == Answer(answers, 6).value)
      && (s.show3DName && !Truthy(Answer(answers, 6)) ==> s.display3DNameFont == "DermaLarge")
      && (s.show3DName && Truthy(Answer(answers, 5)) ==> s.display3DNameText == Answer(answers, 5))
      && (s.show3DName && !Truthy(Answer(answers, 5)) ==> s.display3DNameText == Answer(answers, 1))
  {
  }

  /** With the 3D name shown, the text prompt is pre-filled with the raw
      print-name answer. */
  lemma TextPromptPrefilled(answers: seq<Option<string>>)
    requires Truthy(Answer(answers, 0)) && Answer(answers, 4) == Some("Yes")
    ensures PromptForEntitySettings(answers).shown[5] == TextPrompt(Answer(answers, 1))
  {
  }

  /** The raw-answer fallback in action: an emptied print name becomes
      "New Entity", yet the 3D-name text stays empty. */
  lemma EmptiedPrintNameKeepsEmptyText()
    ensures var s := PromptForEntitySettings([Some("Crate"), Some(""), None, None, Some("No"), None]).settings.value;
      s.printName == "New Entity" && s.display3DNameText == Some("")
  {
  }

  /** A dismissed print name and a dismissed 3D-name text leave the 3D-name
      text `undefined` although the label is shown. */
  lemma DismissedTextStaysUndefined()
    ensures var s := PromptForEntitySettings([Some("Crate"), None, None, None, Some("Yes"), None, None, None]).settings.value;
      s.show3DName && s.display3DNameText == None
  {
  }
}
