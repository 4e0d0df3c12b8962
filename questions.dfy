/**
 * The questions the generator asks, the answers they produce, the synchronous
 * validators that make a question repeat, and the predicates that decide
 * whether a question is asked at all.
 */
module Questions {
  import opened Wrappers
  import opened Text

  /** The values of the "Package Features" checkbox. */
  datatype Feature = Grammars | Keymaps | Menus | Snippets | Styles

  /** The values of the "Add configuration" checkbox. */
  datatype CiService = CircleCI | TravisCI

  /** The npm lifecycle hooks the two list questions offer. */
  datatype Hook = Postinstall | PrepublishOnly | Precommit | Prepush

  /** The choices of "Build Script". */
  type BuildHook = h: Hook | h == Postinstall || h == PrepublishOnly witness Postinstall

  /** The choices of "Linter Hook". */
  type LinterHook = h: Hook | h != Postinstall witness Precommit

  /** The choice value of a hook, as the answer record holds it. */
  function HookName(h: Hook): string {
    match h
    case Postinstall => "postinstall"
    case PrepublishOnly => "prepublishOnly"
    case Precommit => "precommit"
    case Prepush => "prepush"
  }

  /** Two hooks are the same string exactly when they are the same hook. */
  lemma HookNameInjective(g: Hook, h: Hook)
    ensures HookName(g) == HookName(h) <==> g == h
  {
    if g != h {
      assert |HookName(g)| != |HookName(h)|;
    }
  }

  /** Among the offered choices, the build script and the linter hook can only
      coincide when both are `prepublishOnly`. */
  lemma HooksCoincide(b: BuildHook, l: LinterHook)
    ensures HookName(b) == HookName(l) <==> b == PrepublishOnly && l == PrepublishOnly
  {
    HookNameInjective(b, l);
  }

  /** The command-line options and environment the questions depend on. */
  datatype Context = Context(
    allowAtomPrefix: bool,        // --allow-atom-prefix
    allowEmptyDescription: bool,  // --allow-empty-description
    org: bool,                    // whether the `org` option is truthy
    editor: Option<string>)       // the EDITOR environment variable

  /** The completed answer record. An answer to a question that was skipped is `None`. */
  datatype Answers = Answers(
    name: string,
    description: string,
    author: Option<string>,
    license: string,
    features: seq<Feature>,
    activationCmd: bool,
    atomDependenciesQuestion: bool,
    atomDependencies: Option<string>,
    buildScript: BuildHook,
    linterHook: LinterHook,
    addConfig: seq<CiService>,
    initGit: bool,
    openInEditor: Option<bool>)

  /** A validator's verdict: accepted, or a reason shown before the question repeats. */
  datatype Verdict = Accept | Reject(message: string)

  const AtomPrefix := "atom-"
  const PrefixMessage := "Your package name shouldn't be prefixed with \"atom-\""
  const LengthMessage := "The name must be less than or equal to 214 characters"
  const DescriptionMessage := "Please provide a short description for your package"
  const AuthorMessage := "You have to provide a username"
  const NoPackageMessage := "You need to specify at least one package"

  /** The bound the name check enforces, in UTF-16 code units. */
  const MaxNameLength := 241

  /** The validator of the package name. The prefix check comes first;
      the length check applies only to names that pass it. */
  function ValidateName(allowAtomPrefix: bool, name: string): (v: Verdict)
    ensures v == Reject(PrefixMessage) <==> StartsWith(name, AtomPrefix) && !allowAtomPrefix
    ensures v == Reject(LengthMessage) <==>
      !(StartsWith(name, AtomPrefix) && !allowAtomPrefix) && Utf16Length(name) > MaxNameLength
    ensures v == Accept <==>
      (allowAtomPrefix || !StartsWith(name, AtomPrefix)) && Utf16Length(name) <= MaxNameLength
  {
    assert |PrefixMessage| != |LengthMessage|;
    if StartsWith(name, AtomPrefix) && !allowAtomPrefix then Reject(PrefixMessage)
    else if Utf16Length(name) > MaxNameLength then Reject(LengthMessage)
    else Accept
  }

  /** The name check with the bound its message states, 214. */
  function ValidateNameIntended(allowAtomPrefix: bool, name: string): (v: Verdict)
    ensures v == Accept ==> Utf16Length(name) <= 214
    ensures v == Reject(LengthMessage) <==>
      !(StartsWith(name, AtomPrefix) && !allowAtomPrefix) && Utf16Length(name) > 214
    ensures v == Reject(PrefixMessage) <==> StartsWith(name, AtomPrefix) && !allowAtomPrefix
  {
    assert |PrefixMessage| != |LengthMessage|;
    if StartsWith(name, AtomPrefix) && !allowAtomPrefix then Reject(PrefixMessage)
    else if Utf16Length(name) > 214 then Reject(LengthMessage)
    else Accept
  }

  /** The check as written and the check its message describes disagree
      exactly on the names of 215 to 241 code units that pass the prefix check. */
  lemma NameChecksDisagree(allowAtomPrefix: bool, name: string)
    ensures ValidateName(allowAtomPrefix, name) != ValidateNameIntended(allowAtomPrefix, name) <==>
      (allowAtomPrefix || !StartsWith(name, AtomPrefix)) && 214 < Utf16Length(name) <= MaxNameLength
  {
  }

  /** A 241-character name is accepted although the message promises at most 214. */
  lemma {:induction false} LongNameAccepted()
    ensures ValidateName(false, seq(241, _ => 'x')) == Accept
    ensures ValidateNameIntended(false, seq(241, _ => 'x')) == Reject(LengthMessage)
  {
    var name := seq(241, _ => 'x');
    assert !StartsWith(name, AtomPrefix) by {
      assert name[0] != AtomPrefix[0];
    }
    assert Utf16Length(name) == 241;
  }

  /** The validator of the description. */
  function ValidateDescription(allowEmptyDescription: bool, description: string): (v: Verdict)
    ensures v.Reject? <==> description == [] && !allowEmptyDescription
    ensures v.Reject? ==> v.message == DescriptionMessage
  {
    if Utf16Length(description) == 0 && !allowEmptyDescription then Reject(DescriptionMessage)
    else Accept
  }

  /** The validator of the author's user name. */
  function ValidateAuthor(author: string): (v: Verdict)
    ensures v.Reject? <==> author == []
    ensures v.Reject? ==> v.message == AuthorMessage
  {
    if Utf16Length(author) > 0 then Accept else Reject(AuthorMessage)
  }

  /** What the dependency validator does before it goes to the network: a blank
      answer is rejected; otherwise each comma-separated piece is looked up in
      the package registry (`https://atom.io/api/packages/<piece>`). */
  datatype DependencyCheck = Blank(message: string) | LookUp(packages: seq<string>)

  function CheckAtomDependencies(answer: string): (c: DependencyCheck)
    ensures c.Blank? <==> IsBlank(answer)
    ensures c.Blank? ==> c.message == NoPackageMessage
    ensures c.LookUp? ==> |c.packages| == multiset(answer)[','] + 1
    ensures c.LookUp? ==> Join(c.packages, ',') == answer
  {
    if Utf16Length(Trim(answer)) == 0 then Blank(NoPackageMessage)
    else
      JoinSplit(answer, ',');
      LookUp(Split(answer, ','))
  }

  /** The blank check looks at the whole answer, not at its pieces: a lone comma
      passes it and sends two empty names to the registry. */
  lemma LoneCommaPassesBlankCheck()
    ensures CheckAtomDependencies(",") == LookUp(["", ""])
  {
    var c := ",";
    assert !IsJsWhitespace(c[0]);
    assert Trim(c) != [];
    assert c[1..] == [];
    assert Split(c, ',') == [[], []];
  }

  /** The questions, in the order they are asked. */
  datatype Question =
    | Name | Description | Author | License | Features | ActivationCmd
    | AtomDependenciesQuestion | AtomDependencies | BuildScript | LinterHookQuestion
    | AddConfig | InitGit | OpenInEditor

  /** `when` of the author question: `!this.options.org`. */
  predicate AskAuthor(ctx: Context) {
    !ctx.org
  }

  /** `when` of the dependency list: the previous confirmation was answered yes. */
  predicate AskAtomDependencies(atomDependenciesQuestion: bool) {
    atomDependenciesQuestion
  }

  /** `when` of the editor question: EDITOR is set to a non-empty string. */
  predicate AskOpenInEditor(ctx: Context) {
    ctx.editor.Some? && ctx.editor.value != ""
  }

  /** The questions actually put to the user, in order. */
  function AskedQuestions(ctx: Context, atomDependenciesQuestion: bool): (qs: seq<Question>)
    ensures Author in qs <==> AskAuthor(ctx)
    ensures AtomDependencies in qs <==> AskAtomDependencies(atomDependenciesQuestion)
    ensures OpenInEditor in qs <==> AskOpenInEditor(ctx)
    ensures |qs| == 10 + (if AskAuthor(ctx) then 1 else 0)
      + (if AskAtomDependencies(atomDependenciesQuestion) then 1 else 0)
      + (if AskOpenInEditor(ctx) then 1 else 0)
    ensures qs[0] == Name && qs[|qs| - 1] == (if AskOpenInEditor(ctx) then OpenInEditor else InitGit)
  {
    [Name, Description] + (if AskAuthor(ctx) then [Author] else [])
    + [License, Features, ActivationCmd, AtomDependenciesQuestion]
    + (if AskAtomDependencies(atomDependenciesQuestion) then [AtomDependencies] else [])
    + [BuildScript, LinterHookQuestion, AddConfig, InitGit]
    + (if AskOpenInEditor(ctx) then [OpenInEditor] else [])
  }

  /** The questions without a `when` are asked whatever the context. */
  lemma UnconditionalQuestions(ctx: Context, atomDependenciesQuestion: bool)
    ensures var qs := AskedQuestions(ctx, atomDependenciesQuestion);
      && Name in qs && Description in qs && License in qs && Features in qs
      && ActivationCmd in qs && AtomDependenciesQuestion in qs && BuildScript in qs
      && LinterHookQuestion in qs && AddConfig in qs && InitGit in qs
  {
    var qs := AskedQuestions(ctx, atomDependenciesQuestion);
    assert qs[0] == Name;
  }

  /** An answer record the question flow can produce: the skipped questions have
      no answer, the asked ones do, and each asked answer passed its validator
      (the registry lookup aside). */
  predicate Collected(ctx: Context, a: Answers) {
    && ValidateName(ctx.allowAtomPrefix, a.name) == Accept
    && ValidateDescription(ctx.allowEmptyDescription, a.description) == Accept
    && (a.author.Some? <==> AskAuthor(ctx))
    && (a.author.Some? ==> ValidateAuthor(a.author.value) == Accept)
    && (a.atomDependencies.Some? <==> AskAtomDependencies(a.atomDependenciesQuestion))
    && (a.atomDependencies.Some? ==> CheckAtomDependencies(a.atomDependencies.value).LookUp?)
    && (a.openInEditor.Some? <==> AskOpenInEditor(ctx))
  }
}
