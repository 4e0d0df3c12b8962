/**
 * What the generator does once the answers are derived: the directories it
 * creates, the files it renders or copies, the package installs it asks for
 * and the commands it starts, recorded in the order it issues them.
 */
module Materializer {
  import opened Wrappers
  import opened Text
  import opened Questions
  import opened PostProcess

  /** One call the generator issues. `Write` is `copyTpl` when `render` holds
      and a plain `copy` otherwise; `Install` is a `yarnInstall`. */
  datatype Action =
    | MkDir(path: string)
    | Write(template: string, dest: string, render: bool)
    | Install(packages: seq<string>, dev: bool, ignoreScripts: bool)
    | GitInit
    | OpenEditor

  /** The directory `mkdirp` creates for a selected feature: the feature's value. */
  function FeatureDirectory(f: Feature): string {
    match f
    case Grammars => "grammars"
    case Keymaps => "keymaps"
    case Menus => "menus"
    case Snippets => "snippets"
    case Styles => "styles"
  }

  const RuntimeTypings := ["@types/atom", "@types/node", "typescript"]
  const DevTooling := ["tslint", "husky"]
  const PackageDeps := "atom-package-deps"

  function KeymapFile(name: string): string { "keymaps/" + name + ".json" }
  function MenuFile(name: string): string { "menus/" + name + ".json" }
  function StyleFile(name: string): string { "styles/" + name + ".less" }
  function SourceFile(name: string): string { "src/" + name + ".ts" }
  const CircleConfig := ".circleci/config.yml"
  const TravisConfig := ".travis.yml"

  /** The files rendered for the selected features. */
  function FeatureFiles(name: string, features: seq<Feature>): set<string> {
    (if Keymaps in features then {KeymapFile(name)} else {})
    + (if Menus in features then {MenuFile(name)} else {})
    + (if Styles in features then {StyleFile(name)} else {})
  }

  /** The files rendered from templates whatever the answers. */
  function AlwaysRendered(name: string): set<string> {
    {SourceFile(name), "README.md", "LICENSE", "package.json"}
  }

  /** The files copied verbatim whatever the answers. */
  const AlwaysCopied: set<string> := {".editorconfig", ".gitignore", "tsconfig.json", "tslint.json"}

  /** The directories a plan creates. */
  function Directories(plan: seq<Action>): set<string> {
    if plan == [] then {}
    else (if plan[0].MkDir? then {plan[0].path} else {}) + Directories(plan[1..])
  }

  /** The files a plan renders from templates. */
  function Rendered(plan: seq<Action>): set<string> {
    if plan == [] then {}
    else (if plan[0].Write? && plan[0].render then {plan[0].dest} else {}) + Rendered(plan[1..])
  }

  /** The files a plan copies verbatim. */
  function Copied(plan: seq<Action>): set<string> {
    if plan == [] then {}
    else (if plan[0].Write? && !plan[0].render then {plan[0].dest} else {}) + Copied(plan[1..])
  }

  /** The package installs of a plan, in order. */
  function Installs(plan: seq<Action>): seq<Action> {
    if plan == [] then []
    else (if plan[0].Install? then [plan[0]] else []) + Installs(plan[1..])
  }

  /** The sets a plan writes and creates distribute over concatenation. */
  lemma {:induction false} SetsAppend(a: seq<Action>, b: seq<Action>)
    ensures Directories(a + b) == Directories(a) + Directories(b)
    ensures Rendered(a + b) == Rendered(a) + Rendered(b)
    ensures Copied(a + b) == Copied(a) + Copied(b)
  {
    if a == [] {
      assert a + b == b;
    } else {
      assert (a + b)[0] == a[0] && (a + b)[1..] == a[1..] + b;
      SetsAppend(a[1..], b);
    }
  }

  /** The queries of a plan that starts with one given call. */
  lemma SetsCons(x: Action, rest: seq<Action>)
    ensures Directories([x] + rest) == (if x.MkDir? then {x.path} else {}) + Directories(rest)
    ensures Rendered([x] + rest) == (if x.Write? && x.render then {x.dest} else {}) + Rendered(rest)
    ensures Copied([x] + rest) == (if x.Write? && !x.render then {x.dest} else {}) + Copied(rest)
  {
    assert ([x] + rest)[0] == x && ([x] + rest)[1..] == rest;
  }

  lemma SingleWrite(template: string, dest: string, render: bool)
    ensures Directories([Write(template, dest, render)]) == {}
    ensures Rendered([Write(template, dest, render)]) == if render then {dest} else {}
    ensures Copied([Write(template, dest, render)]) == if render then {} else {dest}
  {
    SetsCons(Write(template, dest, render), []);
    assert [Write(template, dest, render)] + [] == [Write(template, dest, render)];
  }

  /** A plan that neither creates directories nor writes files. */
  lemma {:induction false} NoFiles(plan: seq<Action>)
    requires forall x :: x in plan ==> !x.MkDir? && !x.Write?
    ensures Directories(plan) == {} && Rendered(plan) == {} && Copied(plan) == {}
  {
    if plan != [] {
      assert plan[0] in plan;
      assert forall x :: x in plan[1..] ==> x in plan;
      NoFiles(plan[1..]);
    }
  }

  lemma SetsAppend4(s0: seq<Action>, s1: seq<Action>, s2: seq<Action>, s3: seq<Action>)
    ensures Directories(s0 + s1 + s2 + s3) == Directories(s0) + Directories(s1) + Directories(s2) + Directories(s3)
    ensures Rendered(s0 + s1 + s2 + s3) == Rendered(s0) + Rendered(s1) + Rendered(s2) + Rendered(s3)
    ensures Copied(s0 + s1 + s2 + s3) == Copied(s0) + Copied(s1) + Copied(s2) + Copied(s3)
  {
    SetsAppend(s0, s1);
    SetsAppend(s0 + s1, s2);
    SetsAppend(s0 + s1 + s2, s3);
  }

  /** So do the installs. */
  lemma {:induction false} InstallsAppend(a: seq<Action>, b: seq<Action>)
    ensures Installs(a + b) == Installs(a) + Installs(b)
  {
    if a == [] {
      assert a + b == b;
    } else {
      assert (a + b)[0] == a[0] && (a + b)[1..] == a[1..] + b;
      InstallsAppend(a[1..], b);
    }
  }

  /** Files and directories come first, then installs, then `git init`, then the editor. */
  function Phase(x: Action): nat {
    match x
    case MkDir(_) => 0
    case Write(_, _, _) => 0
    case Install(_, _, _) => 1
    case GitInit => 2
    case OpenEditor => 3
  }

  predicate PhasesInOrder(plan: seq<Action>) {
    forall i, j :: 0 <= i < j < |plan| ==> Phase(plan[i]) <= Phase(plan[j])
  }

  /** The first segment of a relative path. */
  function TopDirectory(path: string): string {
    if path == [] || path[0] == '/' then [] else [path[0]] + TopDirectory(path[1..])
  }

  lemma {:induction false} TopDirectoryOf(dir: string, rest: string)
    requires '/' !in dir
    ensures TopDirectory(dir + "/" + rest) == dir
  {
    if dir != [] {
      assert (dir + "/" + rest)[1..] == dir[1..] + "/" + rest;
      TopDirectoryOf(dir[1..], rest);
    }
  }

  /** Every file a plan writes below a directory is written once that directory
      exists: it was among `made` before the plan started, or the plan created it earlier. */
  predicate DirectoriesFirst(made: set<string>, plan: seq<Action>) {
    forall i :: 0 <= i < |plan| && plan[i].Write? && '/' in plan[i].dest ==>
      TopDirectory(plan[i].dest) in made + Directories(plan[..i])
  }

  /** A plan that writes nothing orders nothing. */
  lemma DirectoriesFirstNoWrites(made: set<string>, plan: seq<Action>)
    requires forall x :: x in plan ==> !x.Write?
    ensures DirectoriesFirst(made, plan)
  {
    forall i | 0 <= i < |plan| ensures !plan[i].Write? {
      assert plan[i] in plan;
    }
  }

  /** A plan whose writes all land at the top level or in directories made before it. */
  lemma DirectoriesFirstMade(made: set<string>, plan: seq<Action>)
    requires forall x :: x in plan && x.Write? && '/' in x.dest ==> TopDirectory(x.dest) in made
    ensures DirectoriesFirst(made, plan)
  {
    forall i | 0 <= i < |plan| && plan[i].Write? && '/' in plan[i].dest
      ensures TopDirectory(plan[i].dest) in made + Directories(plan[..i])
    {
      assert plan[i] in plan;
    }
  }

  lemma DirectoriesFirstAppend(made: set<string>, a: seq<Action>, b: seq<Action>)
    requires DirectoriesFirst(made, a)
    requires DirectoriesFirst(made + Directories(a), b)
    ensures DirectoriesFirst(made, a + b)
  {
    var ab := a + b;
    forall i | 0 <= i < |ab| && ab[i].Write? && '/' in ab[i].dest
      ensures TopDirectory(ab[i].dest) in made + Directories(ab[..i])
    {
      if i < |a| {
        assert ab[i] == a[i] && ab[..i] == a[..i];
      } else {
        assert ab[i] == b[i - |a|] && ab[..i] == a + b[..i - |a|];
        SetsAppend(a, b[..i - |a|]);
      }
    }
  }

  /** `props.features.forEach(feature => mkdirp(feature))` */
  function FeatureDirectories(features: seq<Feature>): (r: seq<Action>)
    ensures |r| == |features|
    ensures forall j :: 0 <= j < |features| ==> r[j] == MkDir(FeatureDirectory(features[j]))
    ensures Rendered(r) == {} && Copied(r) == {}
    ensures forall x :: x in r ==> Phase(x) == 0
  {
    if features == [] then []
    else
      var rest := FeatureDirectories(features[1..]);
      SetsCons(MkDir(FeatureDirectory(features[0])), rest);
      assert features == [features[0]] + features[1..];
      [MkDir(FeatureDirectory(features[0]))] + rest
  }

  /** One directory per selected feature. */
  lemma {:induction false} FeatureDirectoriesCreated(features: seq<Feature>)
    ensures Directories(FeatureDirectories(features)) == set f | f in features :: FeatureDirectory(f)
  {
    if features != [] {
      var rest := FeatureDirectories(features[1..]);
      FeatureDirectoriesCreated(features[1..]);
      SetsCons(MkDir(FeatureDirectory(features[0])), rest);
      assert FeatureDirectories(features) == [MkDir(FeatureDirectory(features[0]))] + rest;
      assert features == [features[0]] + features[1..];
      assert (set f | f in features :: FeatureDirectory(f))
        == {FeatureDirectory(features[0])} + (set f | f in features[1..] :: FeatureDirectory(f));
    }
  }

  /** The templates of the selected features that have one: grammars and
      snippets get a directory and nothing in it. */
  function FeatureTemplates(name: string, features: seq<Feature>): (r: seq<Action>)
    ensures Directories(r) == {} && Copied(r) == {}
    ensures Rendered(r) == FeatureFiles(name, features)
    ensures forall x :: x in r ==> Phase(x) == 0
  {
    var keymap := if Keymaps in features then [Write("keymaps/keymap.json.ejs", KeymapFile(name), true)] else [];
    var menu := if Menus in features then [Write("menus/menu.json.ejs", MenuFile(name), true)] else [];
    var style := if Styles in features then [Write("styles/style.less.ejs", StyleFile(name), true)] else [];
    SingleWrite("keymaps/keymap.json.ejs", KeymapFile(name), true);
    SingleWrite("menus/menu.json.ejs", MenuFile(name), true);
    SingleWrite("styles/style.less.ejs", StyleFile(name), true);
    SetsAppend(keymap, menu);
    SetsAppend(keymap + menu, style);
    keymap + menu + style
  }

  /** The source directory and the templates every package gets. */
  function CoreTemplates(name: string): (r: seq<Action>)
    ensures Directories(r) == {"src"} && Rendered(r) == AlwaysRendered(name) && Copied(r) == {}
    ensures forall x :: x in r ==> Phase(x) == 0
  {
    var last := [Write("package.json.ejs", "package.json", true)];
    var s3 := [Write("LICENSE.ejs", "LICENSE", true)] + last;
    var s2 := [Write("README.md.ejs", "README.md", true)] + s3;
    var s1 := [Write("src/index.ts.ejs", SourceFile(name), true)] + s2;
    SetsCons(last[0], []);
    SetsCons(s3[0], last);
    SetsCons(s2[0], s3);
    SetsCons(s1[0], s2);
    SetsCons(MkDir("src"), s1);
    assert last == [last[0]] + [];
    [MkDir("src")] + s1
  }

  /** The CircleCI configuration and its directory, when asked for. */
  function CircleFiles(addConfig: seq<CiService>): (r: seq<Action>)
    ensures Directories(r) == if CircleCI in addConfig then {".circleci"} else {}
    ensures Rendered(r) == if CircleCI in addConfig then {CircleConfig} else {}
    ensures Copied(r) == {}
    ensures forall x :: x in r ==> Phase(x) == 0
  {
    SingleWrite("_circleci/config.yml", CircleConfig, true);
    SetsCons(MkDir(".circleci"), [Write("_circleci/config.yml", CircleConfig, true)]);
    if CircleCI in addConfig then [MkDir(".circleci")] + [Write("_circleci/config.yml", CircleConfig, true)] else []
  }

  /** The Travis CI configuration, when asked for. */
  function TravisFiles(addConfig: seq<CiService>): (r: seq<Action>)
    ensures Directories(r) == {} && Rendered(r) == {}
    ensures Copied(r) == if TravisCI in addConfig then {TravisConfig} else {}
    ensures forall x :: x in r ==> Phase(x) == 0
  {
    SingleWrite("_travis.yml", TravisConfig, false);
    if TravisCI in addConfig then [Write("_travis.yml", TravisConfig, false)] else []
  }

  /** The continuous-integration files asked for. */
  function CiFiles(addConfig: seq<CiService>): (r: seq<Action>)
    ensures Directories(r) == if CircleCI in addConfig then {".circleci"} else {}
    ensures Rendered(r) == if CircleCI in addConfig then {CircleConfig} else {}
    ensures Copied(r) == if TravisCI in addConfig then {TravisConfig} else {}
    ensures forall x :: x in r ==> Phase(x) == 0
  {
    SetsAppend(CircleFiles(addConfig), TravisFiles(addConfig));
    CircleFiles(addConfig) + TravisFiles(addConfig)
  }

  /** The configuration every package gets, copied verbatim. */
  function VerbatimFiles(): (r: seq<Action>)
    ensures Directories(r) == {} && Rendered(r) == {} && Copied(r) == AlwaysCopied
    ensures forall x :: x in r ==> Phase(x) == 0
  {
    var last := [Write("tslint.json", "tslint.json", false)];
    var s2 := [Write("tsconfig.json", "tsconfig.json", false)] + last;
    var s1 := [Write("_gitignore", ".gitignore", false)] + s2;
    SetsCons(last[0], []);
    SetsCons(s2[0], last);
    SetsCons(s1[0], s2);
    SetsCons(Write("_editorconfig", ".editorconfig", false), s1);
    assert last == [last[0]] + [];
    [Write("_editorconfig", ".editorconfig", false)] + s1
  }

  function ConfigFiles(addConfig: seq<CiService>): (r: seq<Action>)
    ensures Directories(r) == if CircleCI in addConfig then {".circleci"} else {}
    ensures Rendered(r) == if CircleCI in addConfig then {CircleConfig} else {}
    ensures Copied(r) == AlwaysCopied + (if TravisCI in addConfig then {TravisConfig} else {})
    ensures forall x :: x in r ==> Phase(x) == 0
  {
    SetsAppend(CiFiles(addConfig), VerbatimFiles());
    CiFiles(addConfig) + VerbatimFiles()
  }

  /** The installs: with `prepublishOnly` as the build script the typings and
      the compiler become development dependencies, and `atom-package-deps`
      (when dependencies were named) is installed on its own. */
  function InstallPlan(buildScript: BuildHook, packageDeps: bool): (r: seq<Action>)
    ensures forall x :: x in r ==> x.Install?
  {
    if buildScript == PrepublishOnly then
      (if packageDeps then [Install([PackageDeps], false, true)] else [])
      + [Install(DevTooling + RuntimeTypings, true, false)]
    else
      [ Install(RuntimeTypings + (if packageDeps then [PackageDeps] else []), false, true),
        Install(DevTooling, true, false) ]
  }

  /** `git init` when asked for, then the editor when the answer is exactly `true`. */
  function PostActions(initGit: bool, openInEditor: Option<bool>): (r: seq<Action>)
    ensures GitInit in r <==> initGit
    ensures OpenEditor in r <==> openInEditor == Some(true)
    ensures forall x :: x in r ==> x == GitInit || x == OpenEditor
    ensures PhasesInOrder(r)
  {
    (if initGit then [GitInit] else []) + (if openInEditor == Some(true) then [OpenEditor] else [])
  }

  /** `typeof props.atomDependencies !== 'undefined' && props.atomDependencies.length > 0` */
  predicate HasPackageDeps(p: Props) {
    p.atomDependencies.Some? && |p.atomDependencies.value| > 0
  }

  /** The directories and files, in the order they are created and written. */
  function FilePlan(name: string, features: seq<Feature>, addConfig: seq<CiService>): (r: seq<Action>)
    ensures forall x :: x in r ==> Phase(x) == 0
  {
    FeatureDirectories(features) + FeatureTemplates(name, features)
    + CoreTemplates(name) + ConfigFiles(addConfig)
  }

  /** The directories the file stage creates. */
  lemma FilePlanDirectories(name: string, features: seq<Feature>, addConfig: seq<CiService>)
    ensures Directories(FilePlan(name, features, addConfig)) ==
      (set f | f in features :: FeatureDirectory(f)) + {"src"}
      + (if CircleCI in addConfig then {".circleci"} else {})
  {
    SetsAppend4(FeatureDirectories(features), FeatureTemplates(name, features),
      CoreTemplates(name), ConfigFiles(addConfig));
    FeatureDirectoriesCreated(features);
  }

  /** The files the file stage renders. */
  lemma FilePlanRendered(name: string, features: seq<Feature>, addConfig: seq<CiService>)
    ensures Rendered(FilePlan(name, features, addConfig)) == FeatureFiles(name, features)
      + AlwaysRendered(name) + (if CircleCI in addConfig then {CircleConfig} else {})
  {
    var s0, s1 := FeatureDirectories(features), FeatureTemplates(name, features);
    var s2, s3 := CoreTemplates(name), ConfigFiles(addConfig);
    SetsAppend4(s0, s1, s2, s3);
    assert Rendered(s0) == {};
  }

  /** The files the file stage copies. */
  lemma FilePlanCopied(name: string, features: seq<Feature>, addConfig: seq<CiService>)
    ensures Copied(FilePlan(name, features, addConfig)) ==
      AlwaysCopied + (if TravisCI in addConfig then {TravisConfig} else {})
  {
    var s0, s1 := FeatureDirectories(features), FeatureTemplates(name, features);
    var s2, s3 := CoreTemplates(name), ConfigFiles(addConfig);
    SetsAppend4(s0, s1, s2, s3);
    assert Copied(s0) == {} && Copied(s1) == {} && Copied(s2) == {};
  }

  /** Everything the generator issues for the derived answers, in order. */
  function Plan(p: Props): seq<Action> {
    FilePlan(p.answers.name, p.answers.features, p.answers.addConfig)
    + InstallPlan(p.answers.buildScript, HasPackageDeps(p))
    + PostActions(p.answers.initGit, p.answers.openInEditor)
  }

  /** `props.features.forEach(feature => mkdirp(feature))` */
  method CreateFeatureDirectories(features: seq<Feature>) returns (plan: seq<Action>)
    ensures plan == FeatureDirectories(features)
  {
    plan := [];
    for i := 0 to |features|
      invariant |plan| == i
      invariant forall j :: 0 <= j < i ==> plan[j] == MkDir(FeatureDirectory(features[j]))
    {
      plan := plan + [MkDir(FeatureDirectory(features[i]))];
    }
  }

  /** The install calls, built from the two package lists as the generator builds them. */
  method InstallDependencies(buildScript: BuildHook, packageDeps: bool) returns (plan: seq<Action>)
    ensures plan == InstallPlan(buildScript, packageDeps)
  {
    plan := [];
    var dependencies := RuntimeTypings;
    var devDependencies := DevTooling;
    if buildScript == PrepublishOnly {
      devDependencies := devDependencies + dependencies;
      if packageDeps {
        plan := plan + [Install([PackageDeps], false, true)];
      }
    } else {
      if packageDeps {
        dependencies := dependencies + [PackageDeps];
      }
      plan := plan + [Install(dependencies, false, true)];
      assert dependencies == RuntimeTypings + (if packageDeps then [PackageDeps] else []);
    }
    plan := plan + [Install(devDependencies, true, false)];
  }

  /** The templates of the selected features. */
  method WriteFeatureTemplates(name: string, features: seq<Feature>) returns (plan: seq<Action>)
    ensures plan == FeatureTemplates(name, features)
  {
    plan := [];
    if Keymaps in features {
      plan := plan + [Write("keymaps/keymap.json.ejs", KeymapFile(name), true)];
    }
    if Menus in features {
      plan := plan + [Write("menus/menu.json.ejs", MenuFile(name), true)];
    }
    if Styles in features {
      plan := plan + [Write("styles/style.less.ejs", StyleFile(name), true)];
    }
  }

  /** The source directory and the templates every package gets. */
  method WriteCoreTemplates(name: string) returns (plan: seq<Action>)
    ensures plan == CoreTemplates(name)
  {
    plan := [MkDir("src")];
    plan := plan + [Write("src/index.ts.ejs", SourceFile(name), true)];
    plan := plan + [Write("README.md.ejs", "README.md", true)];
    plan := plan + [Write("LICENSE.ejs", "LICENSE", true)];
    plan := plan + [Write("package.json.ejs", "package.json", true)];
  }

  /** The continuous-integration files asked for and the verbatim configuration. */
  method WriteConfigFiles(addConfig: seq<CiService>) returns (plan: seq<Action>)
    ensures plan == ConfigFiles(addConfig)
  {
    plan := [];
    if CircleCI in addConfig {
      plan := plan + [MkDir(".circleci")];
      plan := plan + [Write("_circleci/config.yml", CircleConfig, true)];
    }
    if TravisCI in addConfig {
      plan := plan + [Write("_travis.yml", TravisConfig, false)];
    }
    ghost var ci := plan;
    assert ci == CiFiles(addConfig);
    plan := plan + [Write("_editorconfig", ".editorconfig", false)];
    plan := plan + [Write("_gitignore", ".gitignore", false)];
    plan := plan + [Write("tsconfig.json", "tsconfig.json", false)];
    plan := plan + [Write("tslint.json", "tslint.json", false)];
    assert plan == ci + VerbatimFiles();
  }

  /** `git init`, then the editor. */
  method RunPostActions(initGit: bool, openInEditor: Option<bool>) returns (plan: seq<Action>)
    ensures plan == PostActions(initGit, openInEditor)
  {
    plan := [];
    if initGit {
      plan := plan + [GitInit];
    }
    if openInEditor == Some(true) {
      plan := plan + [OpenEditor];
    }
  }

  /** The writing stage, block by block. */
  method Materialize(p: Props) returns (plan: seq<Action>)
    ensures plan == Plan(p)
  {
    var a := p.answers;
    plan := CreateFeatureDirectories(a.features);
    var step := WriteFeatureTemplates(a.name, a.features);
    plan := plan + step;
    step := WriteCoreTemplates(a.name);
    plan := plan + step;
    step := WriteConfigFiles(a.addConfig);
    plan := plan + step;
    assert plan == FilePlan(a.name, a.features, a.addConfig);
    step := InstallDependencies(a.buildScript, HasPackageDeps(p));
    plan := plan + step;
    step := RunPostActions(a.initGit, a.openInEditor);
    plan := plan + step;
  }

  /** The directories the generator creates: one per selected feature, `src`,
      and `.circleci` when CircleCI was asked for. */
  lemma PlanDirectories(p: Props)
    ensures Directories(Plan(p)) ==
      (set f | f in p.answers.features :: FeatureDirectory(f)) + {"src"}
      + (if CircleCI in p.answers.addConfig then {".circleci"} else {})
  {
    PlanStages(p);
    FilePlanDirectories(p.answers.name, p.answers.features, p.answers.addConfig);
  }

  /** The files the generator renders and the files it copies. */
  lemma PlanFiles(p: Props)
    ensures Rendered(Plan(p)) == FeatureFiles(p.answers.name, p.answers.features)
      + AlwaysRendered(p.answers.name) + (if CircleCI in p.answers.addConfig then {CircleConfig} else {})
    ensures Copied(Plan(p)) == AlwaysCopied
      + (if TravisCI in p.answers.addConfig then {TravisConfig} else {})
  {
    PlanStages(p);
    FilePlanRendered(p.answers.name, p.answers.features, p.answers.addConfig);
    FilePlanCopied(p.answers.name, p.answers.features, p.answers.addConfig);
  }

  lemma {:induction false} InstallsOfOthers(a: seq<Action>)
    requires forall x :: x in a ==> !x.Install?
    ensures Installs(a) == []
  {
    if a != [] {
      assert a[0] in a;
      assert forall x :: x in a[1..] ==> x in a;
      InstallsOfOthers(a[1..]);
    }
  }

  lemma {:induction false} InstallsOfInstalls(a: seq<Action>)
    requires forall x :: x in a ==> x.Install?
    ensures Installs(a) == a
  {
    if a != [] {
      assert a[0] in a;
      assert forall x :: x in a[1..] ==> x in a;
      InstallsOfInstalls(a[1..]);
    }
  }

  /** A plan made of a file stage, an install stage and a stage of commands:
      its directories and files are the first stage's ... */
  lemma StagesSets(files: seq<Action>, installs: seq<Action>, post: seq<Action>)
    requires forall x :: x in installs ==> x.Install?
    requires forall x :: x in post ==> x == GitInit || x == OpenEditor
    ensures Directories(files + installs + post) == Directories(files)
    ensures Rendered(files + installs + post) == Rendered(files)
    ensures Copied(files + installs + post) == Copied(files)
  {
    SetsAppend(files, installs);
    SetsAppend(files + installs, post);
    NoFiles(installs);
    NoFiles(post);
  }

  /** ... and its installs are the second stage's. */
  lemma StagesInstalls(files: seq<Action>, installs: seq<Action>, post: seq<Action>)
    requires forall x :: x in files ==> Phase(x) == 0
    requires forall x :: x in installs ==> x.Install?
    requires forall x :: x in post ==> x == GitInit || x == OpenEditor
    ensures Installs(files + installs + post) == installs
  {
    assert Installs(files) == [] by {
      InstallsOfOthers(files);
    }
    assert Installs(installs) == installs by {
      InstallsOfInstalls(installs);
    }
    assert Installs(post) == [] by {
      InstallsOfOthers(post);
    }
    InstallsAppend(files, installs);
    InstallsAppend(files + installs, post);
  }

  /** The stages of the whole plan. */
  lemma PlanStages(p: Props)
    ensures var files := FilePlan(p.answers.name, p.answers.features, p.answers.addConfig);
      && Directories(Plan(p)) == Directories(files) && Rendered(Plan(p)) == Rendered(files)
      && Copied(Plan(p)) == Copied(files)
      && Installs(Plan(p)) == InstallPlan(p.answers.buildScript, HasPackageDeps(p))
  {
    var a := p.answers;
    var files := FilePlan(a.name, a.features, a.addConfig);
    var installs := InstallPlan(a.buildScript, HasPackageDeps(p));
    var post := PostActions(a.initGit, a.openInEditor);
    StagesSets(files, installs, post);
    StagesInstalls(files, installs, post);
  }

  /** The packages a list of installs names as development dependencies (`dev`) or as dependencies. */
  function PackagesOf(installs: seq<Action>, dev: bool): set<string> {
    set x, k | x in installs && x.Install? && x.dev == dev && k in x.packages :: k
  }

  function Elements(s: seq<string>): set<string> {
    set k | k in s
  }

  /** The install block: the linter and the hook manager are always development
      dependencies; the typings and the compiler are development dependencies
      exactly when the build runs before publishing and dependencies otherwise;
      `atom-package-deps` is a dependency exactly when dependencies were named. */
  lemma InstallPlanPackages(buildScript: BuildHook, packageDeps: bool)
    ensures var ins := InstallPlan(buildScript, packageDeps);
      var prepublish := buildScript == PrepublishOnly;
      && PackagesOf(ins, true) == Elements(DevTooling) + (if prepublish then Elements(RuntimeTypings) else {})
      && PackagesOf(ins, false) == (if prepublish then {} else Elements(RuntimeTypings))
        + (if packageDeps then {PackageDeps} else {})
  {
    var extra := if packageDeps then [PackageDeps] else [];
    assert Elements(extra) == if packageDeps then {PackageDeps} else {};
    if buildScript == PrepublishOnly {
      var first := if packageDeps then [Install(extra, false, true)] else [];
      var dev := Install(DevTooling + RuntimeTypings, true, false);
      ElementsAppend(DevTooling, RuntimeTypings);
      assert InstallPlan(buildScript, packageDeps) == first + [dev];
      PackagesAppend(first, [dev]);
    } else {
      var first := Install(RuntimeTypings + extra, false, true);
      var dev := Install(DevTooling, true, false);
      ElementsAppend(RuntimeTypings, extra);
      assert InstallPlan(buildScript, packageDeps) == [first] + [dev];
      PackagesAppend([first], [dev]);
    }
  }

  lemma ElementsAppend(a: seq<string>, b: seq<string>)
    ensures Elements(a + b) == Elements(a) + Elements(b)
  {
  }

  lemma PackagesAppend(a: seq<Action>, b: seq<Action>)
    ensures forall dev :: PackagesOf(a + b, dev) == PackagesOf(a, dev) + PackagesOf(b, dev)
  {
  }

  /** Every entry is an install; the packages' scripts are skipped exactly in
      the installs of dependencies; the development install comes last. */
  predicate InstallCalls(ins: seq<Action>) {
    && (forall x :: x in ins ==> x.Install? && (x.ignoreScripts <==> !x.dev))
    && ins != [] && ins[|ins| - 1].Install? && ins[|ins| - 1].dev
  }

  /** A single install when the build runs before publishing and no
      dependencies were named, two otherwise. The development list is
      `tslint, husky`, followed by the typings and `typescript` when the build
      runs before publishing; the dependency list of the other build script is
      the typings and `typescript`, followed by `atom-package-deps` when
      dependencies were named. */
  lemma InstallPlanCalls(buildScript: BuildHook, packageDeps: bool)
    ensures var ins := InstallPlan(buildScript, packageDeps);
      var prepublish := buildScript == PrepublishOnly;
      && |ins| == (if prepublish && !packageDeps then 1 else 2)
      && InstallCalls(ins)
      && ins[|ins| - 1].packages == DevTooling + (if prepublish then RuntimeTypings else [])
      && (!prepublish ==> ins[0].packages == RuntimeTypings + (if packageDeps then [PackageDeps] else []))
      && (prepublish && packageDeps ==> ins[0].packages == [PackageDeps])
  {
    assert DevTooling + [] == DevTooling;
  }

  /** The installs of the whole plan. */
  lemma PlanInstalls(p: Props)
    ensures var ins := Installs(Plan(p));
      var prepublish := p.answers.buildScript == PrepublishOnly;
      && PackagesOf(ins, true) == Elements(DevTooling) + (if prepublish then Elements(RuntimeTypings) else {})
      && PackagesOf(ins, false) == (if prepublish then {} else Elements(RuntimeTypings))
        + (if HasPackageDeps(p) then {PackageDeps} else {})
      && |ins| == (if prepublish && !HasPackageDeps(p) then 1 else 2)
      && InstallCalls(ins)
      && ins == InstallPlan(p.answers.buildScript, HasPackageDeps(p))
  {
    PlanStages(p);
    InstallPlanPackages(p.answers.buildScript, HasPackageDeps(p));
    InstallPlanCalls(p.answers.buildScript, HasPackageDeps(p));
  }

  /** `git init` runs exactly when it was asked for, and the editor is started
      exactly when the answer to its question is `true`. */
  lemma PlanCommands(p: Props)
    ensures GitInit in Plan(p) <==> p.answers.initGit
    ensures OpenEditor in Plan(p) <==> p.answers.openInEditor == Some(true)
  {
    var a := p.answers;
    var files := FilePlan(a.name, a.features, a.addConfig);
    var installs := InstallPlan(a.buildScript, HasPackageDeps(p));
    assert GitInit !in files && OpenEditor !in files;
    assert GitInit !in installs && OpenEditor !in installs;
  }

  /** Three stages in order keep the phases in order. */
  lemma PhasesOfStages(files: seq<Action>, installs: seq<Action>, post: seq<Action>)
    requires forall x :: x in files ==> Phase(x) == 0
    requires forall x :: x in installs ==> x.Install?
    requires forall x :: x in post ==> x == GitInit || x == OpenEditor
    requires PhasesInOrder(post)
    ensures PhasesInOrder(files + installs + post)
  {
    var all := files + installs + post;
    var k := |files| + |installs|;
    forall i, j | 0 <= i < j < |all| ensures Phase(all[i]) <= Phase(all[j]) {
      if i < |files| {
        assert all[i] in files;
      } else if i < k {
        assert all[i] in installs;
        if j < k {
          assert all[j] in installs;
        } else {
          assert all[j] in post;
        }
      } else {
        assert all[i] == post[i - k] && all[j] == post[j - k];
      }
    }
  }

  /** Files first, then the installs, then `git init`, then the editor. */
  lemma PlanPhasesInOrder(p: Props)
    ensures PhasesInOrder(Plan(p))
  {
    var a := p.answers;
    PhasesOfStages(FilePlan(a.name, a.features, a.addConfig), InstallPlan(a.buildScript, HasPackageDeps(p)),
      PostActions(a.initGit, a.openInEditor));
  }

  /** The directory part of each feature file's path. */
  lemma FeatureFileDirectories(name: string)
    ensures TopDirectory(KeymapFile(name)) == FeatureDirectory(Keymaps)
    ensures TopDirectory(MenuFile(name)) == FeatureDirectory(Menus)
    ensures TopDirectory(StyleFile(name)) == FeatureDirectory(Styles)
  {
    assert KeymapFile(name) == "keymaps" + "/" + (name + ".json");
    TopDirectoryOf("keymaps", name + ".json");
    assert MenuFile(name) == "menus" + "/" + (name + ".json");
    TopDirectoryOf("menus", name + ".json");
    assert StyleFile(name) == "styles" + "/" + (name + ".less");
    TopDirectoryOf("styles", name + ".less");
  }

  lemma SourceFileDirectory(name: string)
    ensures TopDirectory(SourceFile(name)) == "src"
  {
    assert SourceFile(name) == "src" + "/" + (name + ".ts");
    TopDirectoryOf("src", name + ".ts");
  }

  lemma CircleConfigDirectory()
    ensures TopDirectory(CircleConfig) == ".circleci"
  {
    assert CircleConfig == ".circleci" + "/" + "config.yml";
    TopDirectoryOf(".circleci", "config.yml");
  }

  /** The files written at the top level. */
  lemma TopLevelFiles()
    ensures '/' !in "README.md" && '/' !in "LICENSE" && '/' !in "package.json"
    ensures '/' !in TravisConfig && forall f :: f in AlwaysCopied ==> '/' !in f
  {
  }

  /** A directory followed by files written in it or in directories made before. */
  lemma DirectoryThenFiles(made: set<string>, dir: string, files: seq<Action>)
    requires forall x :: x in files && x.Write? && '/' in x.dest ==> TopDirectory(x.dest) in made + {dir}
    ensures DirectoriesFirst(made, [MkDir(dir)] + files)
  {
    DirectoriesFirstNoWrites(made, [MkDir(dir)]);
    assert Directories([MkDir(dir)]) == {dir};
    DirectoriesFirstMade(made + {dir}, files);
    DirectoriesFirstAppend(made, [MkDir(dir)], files);
  }

  /** The feature templates land in the feature directories. */
  lemma FeatureTemplatesInDirectories(made: set<string>, name: string, features: seq<Feature>)
    requires Directories(FeatureDirectories(features)) <= made
    ensures DirectoriesFirst(made, FeatureTemplates(name, features))
  {
    FeatureDirectoriesCreated(features);
    var plan := FeatureTemplates(name, features);
    forall x | x in plan && x.Write? && '/' in x.dest ensures TopDirectory(x.dest) in made {
      if x == Write("keymaps/keymap.json.ejs", KeymapFile(name), true) {
        assert Keymaps in features;
        assert FeatureDirectory(Keymaps) in made;
        FeatureFileDirectories(name);
      } else if x == Write("menus/menu.json.ejs", MenuFile(name), true) {
        assert Menus in features;
        assert FeatureDirectory(Menus) in made;
        FeatureFileDirectories(name);
      } else {
        assert x == Write("styles/style.less.ejs", StyleFile(name), true);
        assert Styles in features;
        assert FeatureDirectory(Styles) in made;
        FeatureFileDirectories(name);
      }
    }
    DirectoriesFirstMade(made, plan);
  }

  /** The source file is written after `src` is created; the others are at the top level. */
  lemma CoreTemplatesInDirectories(made: set<string>, name: string)
    ensures DirectoriesFirst(made, CoreTemplates(name))
  {
    var rest := CoreTemplates(name)[1..];
    assert CoreTemplates(name) == [MkDir("src")] + rest;
    forall x | x in rest && x.Write? && '/' in x.dest ensures TopDirectory(x.dest) in made + {"src"} {
      if x == Write("src/index.ts.ejs", SourceFile(name), true) {
        SourceFileDirectory(name);
      } else {
        TopLevelFiles();
        assert false;
      }
    }
    DirectoryThenFiles(made, "src", rest);
  }

  /** A directory and then one file inside it. */
  lemma DirectoryThenFile(made: set<string>, dir: string, file: string, w: Action)
    requires '/' !in dir && w.Write? && w.dest == dir + "/" + file
    ensures DirectoriesFirst(made, [MkDir(dir), w])
  {
    TopDirectoryOf(dir, file);
    assert forall x :: x in [w] ==> x == w;
    DirectoryThenFiles(made, dir, [w]);
    assert [MkDir(dir)] + [w] == [MkDir(dir), w];
  }

  /** The CircleCI configuration is written after `.circleci` is created. */
  lemma CircleFilesInDirectories(made: set<string>, addConfig: seq<CiService>)
    ensures DirectoriesFirst(made, CircleFiles(addConfig))
  {
    var c := CircleFiles(addConfig);
    if CircleCI in addConfig {
      var w := Write("_circleci/config.yml", CircleConfig, true);
      assert c == [MkDir(".circleci"), w];
      DirectoryThenFile(made, ".circleci", "config.yml", w);
    } else {
      assert c == [];
    }
  }

  /** The Travis CI file is at the top level. */
  lemma TravisFilesInDirectories(made: set<string>, addConfig: seq<CiService>)
    ensures DirectoriesFirst(made, TravisFiles(addConfig))
  {
    assert '/' !in TravisConfig by { TopLevelFiles(); }
    DirectoriesFirstMade(made, TravisFiles(addConfig));
  }

  lemma CiFilesInDirectories(made: set<string>, addConfig: seq<CiService>)
    ensures DirectoriesFirst(made, CiFiles(addConfig))
  {
    var circle := CircleFiles(addConfig);
    CircleFilesInDirectories(made, addConfig);
    TravisFilesInDirectories(made + Directories(circle), addConfig);
    DirectoriesFirstAppend(made, circle, TravisFiles(addConfig));
  }

  /** The verbatim copies are at the top level. */
  lemma VerbatimFilesInDirectories(made: set<string>)
    ensures DirectoriesFirst(made, VerbatimFiles())
  {
    TopLevelFiles();
    DirectoriesFirstMade(made, VerbatimFiles());
  }

  lemma ConfigFilesInDirectories(made: set<string>, addConfig: seq<CiService>)
    ensures DirectoriesFirst(made, ConfigFiles(addConfig))
  {
    CiFilesInDirectories(made, addConfig);
    VerbatimFilesInDirectories(made + Directories(CiFiles(addConfig)));
    DirectoriesFirstAppend(made, CiFiles(addConfig), VerbatimFiles());
  }

  /** The file stage creates each directory before it writes below it. */
  lemma FilePlanDirectoriesFirst(name: string, features: seq<Feature>, addConfig: seq<CiService>)
    ensures DirectoriesFirst({}, FilePlan(name, features, addConfig))
  {
    var s0, s1 := FeatureDirectories(features), FeatureTemplates(name, features);
    var s2, s3 := CoreTemplates(name), ConfigFiles(addConfig);
    DirectoriesFirstNoWrites({}, s0);
    FeatureTemplatesInDirectories({} + Directories(s0), name, features);
    DirectoriesFirstAppend({}, s0, s1);
    CoreTemplatesInDirectories({} + Directories(s0 + s1), name);
    DirectoriesFirstAppend({}, s0 + s1, s2);
    ConfigFilesInDirectories({} + Directories(s0 + s1 + s2), addConfig);
    DirectoriesFirstAppend({}, s0 + s1 + s2, s3);
  }

  /** Every file below a directory is written after the directory is created. */
  lemma PlanDirectoriesFirst(p: Props)
    ensures DirectoriesFirst({}, Plan(p))
  {
    var a := p.answers;
    var files := FilePlan(a.name, a.features, a.addConfig);
    var installs := InstallPlan(a.buildScript, HasPackageDeps(p));
    var post := PostActions(a.initGit, a.openInEditor);
    FilePlanDirectoriesFirst(a.name, a.features, a.addConfig);
    DirectoriesFirstNoWrites({} + Directories(files), installs);
    DirectoriesFirstAppend({}, files, installs);
    DirectoriesFirstNoWrites({} + Directories(files + installs), post);
    DirectoriesFirstAppend({}, files + installs, post);
  }

  /** The dependency list the derivation produces is never empty, so the
      `length > 0` test adds nothing: `atom-package-deps` is installed exactly
      when the answers hold a dependency list. */
  lemma PackageDepsIffAsked(a: Answers, license: LicenseEntry)
    ensures HasPackageDeps(Derive(a, license)) <==> a.atomDependencies.Some?
  {
  }

  /** Whether the dependency pieces are trimmed makes no difference to the plan. */
  lemma TrimLeavesPlanUnchanged(a: Answers, license: LicenseEntry)
    ensures Plan(Derive(a, license)) == Plan(DeriveIntended(a, license))
  {
    var p, q := Derive(a, license), DeriveIntended(a, license);
    DerivationsAgree(a, license);
    assert p.answers == q.answers;
    assert HasPackageDeps(p) == HasPackageDeps(q);
  }

  /** For answers the questions can produce, that is exactly when the
      confirmation "Depend on other Atom packages?" was answered yes. */
  lemma PackageDepsIffConfirmed(ctx: Context, a: Answers, license: LicenseEntry)
    requires Collected(ctx, a)
    ensures HasPackageDeps(Derive(a, license)) <==> a.atomDependenciesQuestion
  {
    PackageDepsIffAsked(a, license);
  }
}
