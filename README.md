# Atom package generator: decision core

A Dafny model of the Yeoman generator that scaffolds a TypeScript Atom
package (`generators/app/index.js`). The generator asks a series of
questions. Validators and `when` predicates decide which answers are accepted
and which questions are asked at all. It then adds derived fields to the
answer record, creates directories, renders and copies files, asks the
package manager to install two package lists, and optionally runs `git init`
and opens an editor. The model leaves prompting, templating and processes to
the outside world. It keeps every decision the generator takes.

- `wrappers.dfy`, module `Wrappers`: `Option`.
- `text.dfy`, module `Text`: the JavaScript string operations the core uses.
  - `startsWith`.
  - `split` on one character, where the empty string gives one empty piece.
  - `trim`, with the ECMAScript whitespace set.
  - `length`, counted in UTF-16 code units.
  - `Join`, the inverse of `split`. The generator never joins; `Join` is
    used only to state the round-trip lemmas.
- `license_text.dfy`, module `LicenseText`: the replacement
  `replace(/\n{3,}/g, '\n\n')`.
  - `Collapse` follows the regular-expression scan.
  - `CapRuns` is an independent streaming reference for the same rule.
  - The two are proved equal.
- `questions.dfy`, module `Questions`:
  - the answer record;
  - the hook choices, as subset types;
  - the validators;
  - the `when` predicates;
  - the order in which questions are asked.
- `post_process.dfy`, module `PostProcess`: the fields the `.then(props => …)`
  callback adds to the answer record.
  - License name, URL and normalised text, `repositoryName` and the dependency
    split, all set at the start of the callback.
  - The `scripts` lines, set later, after the source file, README and LICENSE
    are rendered.
- `materializer.dfy`, module `Materializer`: the calls the callback issues,
  as a sequence of `Action`s: `MkDir`, `Write` (`copyTpl` or `copy`),
  `Install` (`yarnInstall`), `GitInit` and `OpenEditor`.
  - Each block of the callback is a method that appends to a plan as the
    source does (a `for` loop over the features, `concat`/`push` on the
    package lists).
  - Each method is proved equal to a specification function.
  - `Materialize` chains the blocks and is proved equal to `Plan`.
  - Lemmas about `Plan` state:
    - the directories created;
    - the files rendered and copied;
    - the installed packages and how they are installed;
    - the commands started;
    - the order of the phases;
    - that every file below a top-level directory is written after that
      directory is created.

## Model

| member | source | states |
|---|---|---|
| Questions.ValidateName | generators/app/index.js:49-57 | The prefix message is returned exactly when the name starts with `atom-` and the prefix is not allowed. The length message is returned exactly when the prefix check passes and the UTF-16 length exceeds 241. Every other name is accepted. |
| Questions.ValidateNameIntended | generators/app/index.js:52-53 | The same check with the bound of 214 that its message names. An accepted name has length at most 214. |
| Questions.NameChecksDisagree | generators/app/index.js:52-53 | The check as written and the intended check differ exactly on names that pass the prefix check and have a length from 215 to 241. |
| Questions.LongNameAccepted | generators/app/index.js:52-53 | A 241-character name is accepted as written and rejected by the intended check. |
| Questions.ValidateDescription | generators/app/index.js:64-66 | Rejects exactly the empty description, only when empty descriptions are not allowed, and always with the description message. |
| Questions.ValidateAuthor | generators/app/index.js:73 | Rejects exactly the empty user name, with the author message. |
| Questions.CheckAtomDependencies | generators/app/index.js:135-145 | A blank answer (only JavaScript whitespace) is rejected with the "at least one package" message. Any other answer is looked up piece by piece. The pieces are one more than the commas and join back to the answer. |
| Questions.LoneCommaPassesBlankCheck | generators/app/index.js:136-144 | The answer `","` passes the blank guard and sends two empty package names to the registry. |
| Questions.AskedQuestions | generators/app/index.js:43-235 | The author question is asked iff `org` is not set. The dependency list is asked iff the confirmation before it was answered yes. The editor question is asked iff `EDITOR` is a non-empty string. The number of questions follows from these. The name comes first; the last question is the editor question when it is asked and the Git question otherwise. |
| Questions.UnconditionalQuestions | generators/app/index.js:43-235 | The ten questions without a `when` are asked in every context. |
| Questions.HookNameInjective | generators/app/index.js:156-193 | Two hook choice values are the same string exactly when they are the same hook. |
| Questions.HooksCoincide | generators/app/index.js:156-193 | Among the offered choices, the build script and the linter hook are equal only when both are `prepublishOnly`. |
| Questions.AskAuthor | generators/app/index.js:74 | The author question's `when`: asked exactly when the `org` option is not set. |
| Questions.AskAtomDependencies | generators/app/index.js:134 | The dependency list's `when`: asked exactly when the confirmation before it was answered yes. |
| Questions.AskOpenInEditor | generators/app/index.js:232-234 | The editor question's `when`: asked exactly when `EDITOR` is set to a non-empty string. |
| Questions.Collected | generators/app/index.js:43-235 | An answer record the questions can produce. The name, description and author (when asked) passed their validators, and the dependency list (when asked) passed the blank guard. An answer is present exactly when its question was asked. |
| Text.Utf16Length | generators/app/index.js:52 | `length` is between the number of characters and twice that number. It is 0 only for the empty string. It equals the number of characters when every character is in the Basic Multilingual Plane. |
| Text.Trim | generators/app/index.js:136 | The result is a contiguous part of the input, and everything before and after it is JavaScript whitespace. It is empty exactly when the input is blank. Otherwise it neither starts nor ends with whitespace. Together these determine the result. |
| Text.Split | generators/app/index.js:244 | The pieces are one more than the occurrences of the separator, and no piece contains the separator. |
| Text.JoinSplit | generators/app/index.js:244 | Joining the pieces of a split with the same separator gives back the original string. |
| Text.SplitJoin | generators/app/index.js:244 | Splitting the join of a nonempty list of separator-free pieces gives back the pieces. |
| LicenseText.Collapse | generators/app/index.js:240 | The replacement itself, following the scan of the regular-expression engine. The result is never longer than the input. |
| LicenseText.CollapseIsCapRuns | generators/app/index.js:240 | The regular-expression replacement equals the streaming reference. The reference drops a newline exactly when the two characters before it are newlines. |
| LicenseText.CollapseNoTripleNewline | generators/app/index.js:240 | The normalised text never holds three consecutive newlines. |
| LicenseText.CollapseKeepsOtherCharacters | generators/app/index.js:240 | With the newlines removed, the normalised text equals the original text: every other character survives, in order. |
| LicenseText.CollapseKeepsShortRuns | generators/app/index.js:240 | A text without three consecutive newlines is unchanged. |
| LicenseText.CollapseIdempotent | generators/app/index.js:240 | Normalising twice equals normalising once. |
| PostProcess.RepositoryName | generators/app/index.js:241 | The result always starts with `atom-`. It is the name itself when the name already starts with `atom-`; otherwise it is `atom-` followed by the name. |
| PostProcess.RepositoryNameIdempotent | generators/app/index.js:241 | Re-applying the derivation changes nothing. |
| PostProcess.SplitDependencies | generators/app/index.js:243-246 | As written: the list is present exactly when the answer is. It has one more piece than the answer has commas. The pieces contain no comma and join back to the answer. |
| PostProcess.DependenciesNotTrimmed | generators/app/index.js:244-245 | For any two comma-free names, `first + "," + second` splits into exactly `[first, second]`, whitespace included, because the trimmed copy is discarded. |
| PostProcess.SplitDependenciesTrimmed | generators/app/index.js:245 | The intended split: the same number of pieces, each piece the trimmed piece of the split. |
| PostProcess.DependenciesTrimmed | generators/app/index.js:245 | With trimming, each of two comma-separated names loses its surrounding whitespace. |
| PostProcess.TrimKeepsDependencyCount | generators/app/index.js:243-246 | Trimming changes neither whether the list is present nor how many pieces it has, and the list is never empty. |
| PostProcess.ScriptEntry | generators/app/index.js:310-315 | One line of package.json's `scripts` object: the quoted hook, a colon and the quoted command. |
| PostProcess.Scripts | generators/app/index.js:308-317 | Equal hooks give the single line `"prepublishOnly": "npm run lint && npm run build"`. Different hooks give the build line first and the lint line second. |
| PostProcess.ScriptKeysAreTheHooks | generators/app/index.js:308-317 | The keys of the script lines are exactly the two chosen hooks, and no key appears twice. |
| PostProcess.Derive | generators/app/index.js:236-317 | The derived record, as written. License name and URL come from the license entry. The license text is the normalised text, with no newline triple and every other character kept. The repository name is `RepositoryName` of the name and starts with `atom-`. The dependency list is present iff answered; it has one untrimmed, comma-free piece per comma-separated part and joins back to the answer. The script lines are `Scripts` of the two hooks. |
| PostProcess.DeriveIntended | generators/app/index.js:243-246 | The derived record with each dependency piece trimmed. Everything else equals `Derive`. |
| PostProcess.DerivationsAgree | generators/app/index.js:243-246 | The two derivations differ only in the dependency list. Presence and the number of pieces are the same, and each intended piece is the as-written piece trimmed. |
| Materializer.FeatureDirectories | generators/app/index.js:249-251 | One `mkdirp` per selected feature, in order, named after the feature. Nothing is written. |
| Materializer.FeatureDirectoriesCreated | generators/app/index.js:249-251 | The directories created are exactly the selected features' directories. |
| Materializer.CreateFeatureDirectories | generators/app/index.js:249-251 | The `forEach` loop issues exactly the calls of `FeatureDirectories`. |
| Materializer.FeatureTemplates | generators/app/index.js:253-281 | The rendered files are exactly `keymaps/<name>.json`, `menus/<name>.json` and `styles/<name>.less`, each iff its feature is selected. There are no directories and no copies, so grammars and snippets get no file. |
| Materializer.WriteFeatureTemplates | generators/app/index.js:253-281 | The three `if` blocks issue exactly `FeatureTemplates`. |
| Materializer.CoreTemplates | generators/app/index.js:283-306 | Creates `src` and renders exactly `src/<name>.ts`, `README.md` and `LICENSE`, plus `package.json` (`:319-325`). Nothing is copied. |
| Materializer.WriteCoreTemplates | generators/app/index.js:283-306 | The source, README, license and package.json blocks issue exactly `CoreTemplates`. |
| Materializer.CircleFiles | generators/app/index.js:327-333 | `.circleci` is created and `.circleci/config.yml` rendered exactly when CircleCI is asked for. |
| Materializer.TravisFiles | generators/app/index.js:335-340 | `.travis.yml` is copied exactly when Travis CI is asked for. |
| Materializer.CiFiles | generators/app/index.js:327-340 | `.circleci` is created and its configuration rendered iff CircleCI is asked for. `.travis.yml` is copied iff Travis CI is asked for. Nothing else is created or written. |
| Materializer.VerbatimFiles | generators/app/index.js:342-360 | Copies exactly `.editorconfig`, `.gitignore`, `tsconfig.json` and `tslint.json`, and nothing else. |
| Materializer.ConfigFiles | generators/app/index.js:327-360 | The copies are the four verbatim files, plus `.travis.yml` iff asked for. |
| Materializer.WriteConfigFiles | generators/app/index.js:327-360 | The CI and copy blocks issue exactly `ConfigFiles`. |
| Materializer.FilePlanDirectories | generators/app/index.js:249-328 | The file stage creates the feature directories, `src`, and `.circleci` iff CircleCI is asked for. |
| Materializer.FilePlanRendered | generators/app/index.js:253-333 | The file stage renders the selected feature files, the four core templates, and the CircleCI configuration iff asked for. |
| Materializer.FilePlanCopied | generators/app/index.js:335-360 | The file stage copies the four verbatim files, and `.travis.yml` iff asked for. |
| Materializer.InstallPlan | generators/app/index.js:362-377 | The install block contains nothing but installs. |
| Materializer.InstallDependencies | generators/app/index.js:362-377 | The block builds its two lists with `concat` and `push`, as the source does. It issues exactly `InstallPlan`. |
| Materializer.InstallPlanPackages | generators/app/index.js:362-377 | The development packages are `tslint` and `husky`, plus the typings and `typescript` iff the build script is `prepublishOnly`. The other packages are the typings and `typescript` iff it is not, plus `atom-package-deps` iff dependencies were named. |
| Materializer.InstallPlanCalls | generators/app/index.js:362-377 | There is a single install when the build script is `prepublishOnly` and no dependencies were named, and two installs otherwise. Every entry is an install, and scripts are skipped exactly in the non-development installs. The development install is last, with the ordered list `tslint, husky`, followed by `@types/atom, @types/node, typescript` iff the build runs before publishing. With `postinstall` the first install is `@types/atom, @types/node, typescript`, plus `atom-package-deps` when dependencies were named. With `prepublishOnly` and dependencies it is `atom-package-deps` alone. |
| Materializer.PostActions | generators/app/index.js:379-387 | `git init` iff asked for, the editor iff the answer is exactly `true`, and `git init` before the editor. |
| Materializer.RunPostActions | generators/app/index.js:379-387 | The two `if` blocks issue exactly `PostActions`. |
| Materializer.Materialize | generators/app/index.js:248-387 | The whole callback, block by block, issues exactly `Plan` of the derived answers. |
| Materializer.PlanDirectories | generators/app/index.js:249-328 | The generator creates the feature directories, `src`, and `.circleci` iff CircleCI is asked for, and no other directory. |
| Materializer.PlanFiles | generators/app/index.js:253-360 | The rendered and copied files of the whole plan are exactly as listed above. No install or command writes a file. |
| Materializer.PlanInstalls | generators/app/index.js:362-377 | The installs of the whole plan are exactly the install block. Their development and other packages follow `InstallPlanPackages`, and the calls follow `InstallPlanCalls`. |
| Materializer.PlanCommands | generators/app/index.js:379-387 | `git init` is in the plan iff `initGit`. The editor is in the plan iff `openInEditor === true`. |
| Materializer.PlanPhasesInOrder | generators/app/index.js:248-387 | All directories and files come first, then the installs, then `git init`, then the editor. |
| Materializer.FilePlan | generators/app/index.js:249-360 | The file stage: feature directories, feature templates, core templates, then configuration files. It holds only directories and writes. |
| Materializer.HasPackageDeps | generators/app/index.js:368 | The test that the dependency list is defined and not empty. |
| Materializer.Plan | generators/app/index.js:248-387 | Everything the callback issues for the derived record: the file stage, then the install block, then the post actions. |
| Materializer.FilePlanDirectoriesFirst | generators/app/index.js:249-360 | In the file stage, every file below a top-level directory is written after that directory is created. |
| Materializer.PlanDirectoriesFirst | generators/app/index.js:248-387 | The same holds for the whole plan. |
| Materializer.PackageDepsIffAsked | generators/app/index.js:368-372 | The derived list is never empty, so the `length > 0` test is redundant: `atom-package-deps` is installed exactly when a dependency list was answered. |
| Materializer.TrimLeavesPlanUnchanged | generators/app/index.js:243-246 | The plan is the same whether or not the dependency pieces are trimmed. |
| Materializer.PackageDepsIffConfirmed | generators/app/index.js:368-372 | For answer records the questions can produce, `atom-package-deps` is installed exactly when "Depend on other Atom packages?" was answered yes (`:134`). |

## Left out

- Yeoman and Inquirer: a validated question repeating, answer `store` caching, `templatePath`/`destinationPath`, and the defaults (`slugify`, `gitUserName`, `fs.existsSync('.git/')`, the `'true'` string default of the editor question). These are framework behaviour. The answers are an input to the model.
- Template contents: the EJS templates are not part of this model. A write is recorded by its template, its destination and whether it is rendered.
- The SPDX license table (`spdx-license-list`) and the license choices built from it. This is foreign data. The looked-up entry is a `LicenseEntry` parameter.
- The registry lookup in the dependency validator (`axios.get`, `Promise.all`, and the message naming the last piece). This is network I/O. The model only says which pieces would be looked up.
- The effects of `mkdirp`, `this.fs.copyTpl`/`copy`, `yarnInstall`, `spawnCommandSync('git', ['init'])` and `spawnCommand(EDITOR, ['.'])`. The plan records these calls in the order they are issued. `mkdirp` is not awaited and works relative to the current directory. Neither its asynchrony nor where its directories end up is modelled; the ordering lemmas are about the order of the calls.
- `terminalLink` labels and `updateNotifier`. These are display only.
- The constructor's options: `allow-atom-prefix` and `allow-empty-description` are the fields of `Context`, already reduced to booleans.
- Questions.AskedQuestions: the `when` predicates are evaluated on the context and on the confirmation answer only. Inquirer's evaluation of them one by one during prompting is not modelled.
- The order of the derivation: `props.scripts` is set at `:308-317`, after `src/<name>.ts`, README.md and LICENSE are rendered with `pkg: props` (`:284-306`). The model derives every field first, so `Derive` does not capture that those three templates render without `scripts`.
- Materializer.PlanDirectoriesFirst: it checks only the first segment of each destination. A name containing `/` passes the name validator. It then places `src/<name>.ts` (and the feature files) in a nested directory that no `mkdirp` call creates. Creating such nested directories is left to the file-system layer and is not modelled.
- Text: characters are Unicode scalar values, so unpaired UTF-16 surrogates cannot occur. `Utf16Length` counts astral characters as two units.

## Findings

| source | as written | input that shows it | evidently intended | confidence | as-written member | corrected member |
|---|---|---|---|---|---|---|
| generators/app/index.js:52-53 | the name is rejected only when its length exceeds 241 | a name of 241 `x` characters is accepted although the message says at most 214 | reject names longer than 214 characters | not executed | Questions.ValidateName, Questions.LongNameAccepted | Questions.ValidateNameIntended, Questions.NameChecksDisagree |
| generators/app/index.js:245 | `map(dependency => dependency.trim())` builds a trimmed list and discards it | the answer `"pkg-a, pkg-b"` keeps `" pkg-b"` with its space | store the trimmed pieces | not executed | PostProcess.SplitDependencies, PostProcess.DependenciesNotTrimmed | PostProcess.SplitDependenciesTrimmed, PostProcess.DependenciesTrimmed, PostProcess.DeriveIntended |

`PostProcess.Derive` and `Questions.Collected` follow the code as written. The plan is the same under the corrected derivation (`Materializer.TrimLeavesPlanUnchanged`), because it only depends on whether the list is non-empty (`PostProcess.TrimKeepsDependencyCount`).
