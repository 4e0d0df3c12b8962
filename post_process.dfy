/**
 * The fields the generator derives from the completed answers before any file
 * is written: the license's name, URL and normalised text, the repository
 * name, the dependency list split at commas, and the npm script lines.
 */
module PostProcess {
  import opened Wrappers
  import opened Text
  import opened LicenseText
  import opened Questions

  /** One entry of the SPDX license table, looked up by the chosen identifier. */
  datatype LicenseEntry = LicenseEntry(name: string, url: string, licenseText: string)

  /** The answer record once the derived fields have been added to it. */
  datatype Props = Props(
    answers: Answers,
    licenseURL: string,
    licenseName: string,
    licenseText: string,
    repositoryName: string,
    atomDependencies: Option<seq<string>>,
    scripts: seq<string>)

  /** The repository name carries the `atom-` prefix, added only when missing. */
  function RepositoryName(name: string): (r: string)
    ensures StartsWith(r, AtomPrefix)
    ensures StartsWith(name, AtomPrefix) ==> r == name
    ensures !StartsWith(name, AtomPrefix) ==> r[|AtomPrefix|..] == name
  {
    if StartsWith(name, AtomPrefix) then name else AtomPrefix + name
  }

  /** Deriving the repository name a second time changes nothing. */
  lemma RepositoryNameIdempotent(name: string)
    ensures RepositoryName(RepositoryName(name)) == RepositoryName(name)
  {
  }

  /** The dependency answer split at commas, as written: the pieces keep the
      whitespace around them, because the trimmed copy `map` returns is dropped. */
  function SplitDependencies(answer: Option<string>): (r: Option<seq<string>>)
    ensures r.Some? <==> answer.Some?
    ensures r.Some? ==> |r.value| == multiset(answer.value)[','] + 1
    ensures r.Some? ==> Join(r.value, ',') == answer.value
    ensures r.Some? ==> forall i :: 0 <= i < |r.value| ==> ',' !in r.value[i]
  {
    match answer
    case None => None
    case Some(s) =>
      JoinSplit(s, ',');
      Some(Split(s, ','))
  }

  /** Two names separated by a comma become the two names exactly as typed:
      `"pkg-a, pkg-b"` gives `["pkg-a", " pkg-b"]`, with the space kept. */
  lemma DependenciesNotTrimmed(first: string, second: string)
    requires ',' !in first && ',' !in second
    ensures SplitDependencies(Some(first + "," + second)) == Some([first, second])
  {
    assert first + "," + second == first + [','] + second;
    SplitAfterFirst(first, ',', second);
    SplitWithoutSeparator(second, ',');
    assert Split(first + "," + second, ',') == [first] + [second] == [first, second];
  }

  /** The split with each piece trimmed, as the `map` over the pieces intends. */
  function SplitDependenciesTrimmed(answer: Option<string>): (r: Option<seq<string>>)
    ensures r.Some? <==> answer.Some?
    ensures r.Some? ==> |r.value| == multiset(answer.value)[','] + 1
    ensures r.Some? ==> forall i :: 0 <= i < |r.value| ==>
      r.value[i] == Trim(Split(answer.value, ',')[i])
  {
    match answer
    case None => None
    case Some(s) =>
      var parts := Split(s, ',');
      Some(seq(|parts|, i requires 0 <= i < |parts| => Trim(parts[i])))
  }

  /** With trimming, each of the two names loses the whitespace around it:
      `"pkg-a, pkg-b"` gives `["pkg-a", "pkg-b"]`. */
  lemma DependenciesTrimmed(first: string, second: string)
    requires ',' !in first && ',' !in second
    ensures var r := SplitDependenciesTrimmed(Some(first + "," + second));
      r.Some? && |r.value| == 2 && r.value[0] == Trim(first) && r.value[1] == Trim(second)
  {
    DependenciesNotTrimmed(first, second);
    var parts := Split(first + "," + second, ',');
    assert parts == [first, second];
    var r := SplitDependenciesTrimmed(Some(first + "," + second)).value;
    assert |r| == 2;
    assert r[0] == Trim(parts[0]) && parts[0] == first;
    assert r[1] == Trim(parts[1]) && parts[1] == second;
    assert r == [Trim(first), Trim(second)];
  }

  /** Trimming changes the names but not how many there are. */
  lemma TrimKeepsDependencyCount(answer: Option<string>)
    ensures SplitDependencies(answer).Some? == SplitDependenciesTrimmed(answer).Some?
    ensures SplitDependencies(answer).Some? ==>
      |SplitDependencies(answer).value| == |SplitDependenciesTrimmed(answer).value| > 0
  {
  }

  /** One line of the `scripts` object of package.json. */
  function ScriptEntry(hook: string, command: string): string {
    "\"" + hook + "\": \"" + command + "\""
  }

  const BuildCommand := "npm run build"
  const LintCommand := "npm run lint"
  const LintAndBuildCommand := "npm run lint && npm run build"

  /** The script lines: one combined line when the build script and the linter
      hook are the same hook, otherwise the build line and then the lint line. */
  function Scripts(buildScript: BuildHook, linterHook: LinterHook): (r: seq<string>)
    ensures buildScript == linterHook ==>
      r == [ScriptEntry(HookName(PrepublishOnly), LintAndBuildCommand)]
    ensures buildScript != linterHook ==>
      r == [ScriptEntry(HookName(buildScript), BuildCommand), ScriptEntry(HookName(linterHook), LintCommand)]
  {
    HookNameInjective(buildScript, linterHook);
    if HookName(buildScript) == HookName(linterHook) then
      [ScriptEntry("prepublishOnly", LintAndBuildCommand)]
    else
      [ScriptEntry(HookName(buildScript), BuildCommand), ScriptEntry(HookName(linterHook), LintCommand)]
  }

  /** The key of a script line: the text between its first two double quotes. */
  function ScriptKey(entry: string): string {
    if entry != [] && entry[0] == '"' then UpToQuote(entry[1..]) else []
  }

  function UpToQuote(s: string): string {
    if s == [] || s[0] == '"' then [] else [s[0]] + UpToQuote(s[1..])
  }

  lemma {:induction false} UpToQuoteOf(key: string, rest: string)
    requires '"' !in key
    ensures UpToQuote(key + "\"" + rest) == key
  {
    if key != [] {
      assert (key + "\"" + rest)[1..] == key[1..] + "\"" + rest;
      UpToQuoteOf(key[1..], rest);
    }
  }

  lemma ScriptKeyOf(hook: string, command: string)
    requires '"' !in hook
    ensures ScriptKey(ScriptEntry(hook, command)) == hook
  {
    var e := ScriptEntry(hook, command);
    assert e[1..] == hook + "\"" + (": \"" + command + "\"");
    UpToQuoteOf(hook, ": \"" + command + "\"");
  }

  lemma HookNameHasNoQuote(h: Hook)
    ensures '"' !in HookName(h)
  {
  }

  /** Every chosen hook gets exactly one script line: the keys of the lines are
      the two hooks, and no key appears twice. */
  lemma ScriptKeysAreTheHooks(buildScript: BuildHook, linterHook: LinterHook)
    ensures var r := Scripts(buildScript, linterHook);
      (set i | 0 <= i < |r| :: ScriptKey(r[i])) == {HookName(buildScript), HookName(linterHook)}
      && forall i, j :: 0 <= i < j < |r| ==> ScriptKey(r[i]) != ScriptKey(r[j])
  {
    var r := Scripts(buildScript, linterHook);
    HookNameHasNoQuote(buildScript);
    HookNameHasNoQuote(linterHook);
    HookNameHasNoQuote(PrepublishOnly);
    HookNameInjective(buildScript, linterHook);
    HooksCoincide(buildScript, linterHook);
    if buildScript == linterHook {
      ScriptKeyOf(HookName(PrepublishOnly), LintAndBuildCommand);
      assert (set i | 0 <= i < |r| :: ScriptKey(r[i])) == {ScriptKey(r[0])};
    } else {
      ScriptKeyOf(HookName(buildScript), BuildCommand);
      ScriptKeyOf(HookName(linterHook), LintCommand);
      assert (set i | 0 <= i < |r| :: ScriptKey(r[i])) == {ScriptKey(r[0]), ScriptKey(r[1])};
    }
  }

  /** The derivation step: the answers with the derived fields added. The
      dependency list keeps its pieces untrimmed, as the code is written. */
  function Derive(a: Answers, license: LicenseEntry): (p: Props)
    ensures p.answers == a
    ensures p.licenseName == license.name && p.licenseURL == license.url
    ensures p.licenseText == Collapse(license.licenseText)
    ensures NoTripleNewline(p.licenseText) && Strip(p.licenseText) == Strip(license.licenseText)
    ensures p.repositoryName == RepositoryName(a.name) && StartsWith(p.repositoryName, AtomPrefix)
    ensures p.atomDependencies.Some? <==> a.atomDependencies.Some?
    ensures a.atomDependencies.Some? ==>
      |p.atomDependencies.value| == multiset(a.atomDependencies.value)[','] + 1
      && Join(p.atomDependencies.value, ',') == a.atomDependencies.value
      && forall i :: 0 <= i < |p.atomDependencies.value| ==> ',' !in p.atomDependencies.value[i]
    ensures p.scripts == Scripts(a.buildScript, a.linterHook)
    ensures |p.scripts| == (if a.buildScript == a.linterHook then 1 else 2)
  {
    CollapseNoTripleNewline(license.licenseText);
    CollapseKeepsOtherCharacters(license.licenseText);
    Props(
      a,
      license.url,
      license.name,
      Collapse(license.licenseText),
      RepositoryName(a.name),
      SplitDependencies(a.atomDependencies),
      Scripts(a.buildScript, a.linterHook))
  }

  /** The derivation as the `map` over the pieces intends: each piece trimmed. */
  function DeriveIntended(a: Answers, license: LicenseEntry): (p: Props)
    ensures p == Derive(a, license).(atomDependencies := SplitDependenciesTrimmed(a.atomDependencies))
    ensures p.atomDependencies.Some? <==> a.atomDependencies.Some?
    ensures a.atomDependencies.Some? ==>
      |p.atomDependencies.value| == multiset(a.atomDependencies.value)[','] + 1
      && forall i :: 0 <= i < |p.atomDependencies.value| ==>
        p.atomDependencies.value[i] == Trim(Split(a.atomDependencies.value, ',')[i])
  {
    Derive(a, license).(atomDependencies := SplitDependenciesTrimmed(a.atomDependencies))
  }

  /** The two derivations differ at most in the dependency list, and there
      only by the whitespace around each piece: the number of pieces is the same. */
  lemma DerivationsAgree(a: Answers, license: LicenseEntry)
    ensures var p, q := Derive(a, license), DeriveIntended(a, license);
      && q.(atomDependencies := p.atomDependencies) == p
      && (p.atomDependencies.Some? <==> q.atomDependencies.Some?)
      && (p.atomDependencies.Some? ==> |p.atomDependencies.value| == |q.atomDependencies.value|)
      && (p.atomDependencies.Some? ==> forall i :: 0 <= i < |p.atomDependencies.value| ==>
        q.atomDependencies.value[i] == Trim(p.atomDependencies.value[i]))
  {
    TrimKeepsDependencyCount(a.atomDependencies);
  }
}
