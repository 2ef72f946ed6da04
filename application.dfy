/**
  The pure helpers of the "application" schematic
  (src/schematics/application/index.ts): project-relative paths, the webpack
  externals for Electron's main code, which workspace projects are Angular
  browser applications, name validation, the names of the generated projects,
  the version range of the custom-webpack builder, and the non-interactive
  choice of the main builder.
 */
module ApplicationSchematic {
  import opened Js
  import Text

  /** `relativeRoot`: `p` below `root`, without a leading "/" for an empty root. */
  function RelativeRoot(root: string, p: string): string {
    (if root != "" then root + "/" else "") + p
  }

  /** The result ends with `p`; with an empty root it is `p` itself, otherwise
      it is the root, one "/", then `p`, so it starts with "/" only when the root
      or, for an empty root, `p` does. */
  lemma RelativeRootSpec(root: string, p: string)
    ensures var r := RelativeRoot(root, p);
      && |r| >= |p| && r[|r| - |p|..] == p
      && (root == "" ==> r == p)
      && (root != "" ==> |r| == |root| + 1 + |p| && r[..|root|] == root && r[|root|] == '/')
      && (|r| > 0 && r[0] == '/' ==> (root != "" && root[0] == '/') || (root == "" && p[0] == '/'))
  {
    var r := RelativeRoot(root, p);
    if root != "" {
      assert r == root + ("/" + p);
      assert r[|root|..] == "/" + p;
    }
  }

  /** Node's built-in modules, kept out of the main bundle. */
  const NodeBuiltInModules: seq<string> := [
    "assert", "async_hooks", "buffer", "child_process", "cluster", "console",
    "constants", "crypto", "dgram", "dns", "domain", "events", "fs", "http",
    "http2", "https", "inspector", "module", "net", "os", "path", "perf_hooks",
    "process", "punycode", "querystring", "readline", "repl", "stream",
    "string_decoder", "timers", "tls", "trace_events", "tty", "url", "util", "v8",
    "vm", "wasi", "worker_threads", "zlib"]

  /** `getWebpackExternals`: "electron" and every built-in module `m` map to
      "commonjs m", and nothing else is external. */
  method WebpackExternals() returns (ext: map<string, string>)
    ensures forall k :: k in ext <==> k == "electron" || k in NodeBuiltInModules
    ensures forall m :: m in ext ==> ext[m] == "commonjs " + m
  {
    ext := ExternalsOf(NodeBuiltInModules);
  }

  /** The loop of `getWebpackExternals`, over any list of module names. */
  method ExternalsOf(modules: seq<string>) returns (ext: map<string, string>)
    ensures forall k :: k in ext <==> k == "electron" || k in modules
    ensures forall m :: m in ext ==> ext[m] == "commonjs " + m
  {
    ext := map["electron" := "commonjs electron"];
    var i := 0;
    while i < |modules|
      invariant 0 <= i <= |modules|
      invariant forall k :: k in ext <==> k == "electron" || k in modules[..i]
      invariant forall m :: m in ext ==> ext[m] == "commonjs " + m
    {
      var cur := modules[i];
      assert modules[..i + 1] == modules[..i] + [cur];
      ext := ext[cur := "commonjs " + cur];
      i := i + 1;
    }
    assert modules[..i] == modules;
  }

  /** A workspace project: its name and the builder of its "build" target, if it has one. */
  datatype Project = Project(name: string, buildBuilder: Option<string>)

  const AngularBrowserBuilder := "@angular-devkit/build-angular:browser"
  const CustomWebpackBrowserBuilder := "@angular-builders/custom-webpack:browser"

  predicate IsAngularApp(p: Project) {
    p.buildBuilder == Some(AngularBrowserBuilder) || p.buildBuilder == Some(CustomWebpackBrowserBuilder)
  }

  /** `getAngularProjects`: the names of the projects, in workspace order,
      whose build target uses one of the two browser builders. */
  function AngularProjects(projects: seq<Project>): (names: seq<string>)
    ensures |names| <= |projects|
    ensures forall n :: n in names <==> exists i :: 0 <= i < |projects| && projects[i].name == n && IsAngularApp(projects[i])
  {
    if projects == [] then []
    else
      var rest := AngularProjects(projects[1..]);
      assert forall i :: 0 <= i < |projects| - 1 ==> projects[1..][i] == projects[i + 1];
      if IsAngularApp(projects[0]) then [projects[0].name] + rest else rest
  }

  /** A project without a build target is never an Angular project. */
  lemma ProjectWithoutBuildExcluded(projects: seq<Project>, n: string)
    requires forall i :: 0 <= i < |projects| && projects[i].name == n ==> projects[i].buildBuilder.None?
    ensures n !in AngularProjects(projects)
  {
  }

  const NameRequiredMessage := "Invalid options, \"name\" is required."

  /** `validateName`; `projectNameError` is what the workspace's project name
      validator throws for the name, None when it accepts it. */
  function ValidateName(name: Option<string>, projectNameError: Option<string>): Result<()> {
    if name.None? || name.value == "" then Err(Thrown(NameRequiredMessage))
    else if projectNameError.Some? then Err(Thrown(projectNameError.value))
    else Ok(())
  }

  /** A missing or empty name is rejected before the project name validator is
      consulted; any other name is accepted exactly when that validator accepts it. */
  lemma ValidateNameSpec(name: Option<string>, projectNameError: Option<string>)
    ensures name.None? || name == Some("") ==> ValidateName(name, projectNameError) == Err(Thrown(NameRequiredMessage))
    ensures name.Some? && name.value != "" ==>
      (ValidateName(name, projectNameError).Ok? <==> projectNameError.None?)
  {
  }

  /** The projects the schematic creates or updates. */
  datatype ProjectNames = ProjectNames(main: string, renderer: string, electron: Option<string>)

  /** Whether a renderer project was given (a truthy string). */
  predicate HasRenderer(rendererProject: Option<string>) {
    rendererProject.Some? && rendererProject.value != ""
  }

  /** In single-project mode one project is both main and renderer: the given
      renderer project, else `name`. Otherwise main is "name-main", electron is
      "name-electron", and the renderer is the given project, else "name-renderer". */
  function ProjectNamesFor(singleProject: bool, name: string, rendererProject: Option<string>): ProjectNames {
    if singleProject then
      var p := if HasRenderer(rendererProject) then rendererProject.value else name;
      ProjectNames(p, p, None)
    else
      ProjectNames(name + "-main",
                   if HasRenderer(rendererProject) then rendererProject.value else name + "-renderer",
                   Some(name + "-electron"))
  }

  /** In multi-project mode the main and electron projects never collide, and
      the renderer project created for `name` collides with neither. */
  lemma ProjectNamesDistinct(name: string, rendererProject: Option<string>)
    ensures var ns := ProjectNamesFor(false, name, rendererProject);
      && ns.electron.Some? && ns.main != ns.electron.value
      && (!HasRenderer(rendererProject) ==> ns.renderer != ns.main && ns.renderer != ns.electron.value)
  {
    var ns := ProjectNamesFor(false, name, rendererProject);
    var k := |name|;
    assert (name + "-main")[k + 1] == 'm';
    assert (name + "-electron")[k + 1] == 'e';
    assert (name + "-renderer")[k + 1] == 'r';
  }

  /** The major version of `@angular/core` as the schematic reads it: the first
      run of digits of its version (None without the dependency); a version
      without any digit makes `match` yield null, and indexing it throws. */
  function AngularCoreVersion(angularDep: Option<string>): Result<Option<string>> {
    if angularDep.None? then Ok(None)
    else match Text.FirstDigitRun(angularDep.value)
      case None => Err(TypeError)
      case Some(run) => Ok(Some(run))
  }

  /** The version range of `@angular-builders/custom-webpack`. */
  function CustomWebpackVersion(angularCoreVersion: Option<string>): string {
    if angularCoreVersion.Some? && angularCoreVersion.value != "" then "^" + angularCoreVersion.value + ".0.0"
    else "latest"
  }

  /** Without `@angular/core` the custom-webpack range is "latest"; with it, it
      is "^N.0.0" with N the first digit run of the version, and reading fails
      only when the version holds no digit. */
  lemma CustomWebpackVersionSpec(angularDep: Option<string>)
    ensures angularDep.None? ==> AngularCoreVersion(angularDep) == Ok(None) && CustomWebpackVersion(None) == "latest"
    ensures angularDep.Some? ==>
      (AngularCoreVersion(angularDep).Err? <==> forall i :: 0 <= i < |angularDep.value| ==> !Text.IsDigit(angularDep.value[i]))
    ensures angularDep.Some? && AngularCoreVersion(angularDep).Ok? ==>
      var run := AngularCoreVersion(angularDep).value;
      && run.Some? && run.value != "" && Text.AllDigits(run.value)
      && CustomWebpackVersion(run) == "^" + run.value + ".0.0"
      && exists k :: Text.IsFirstDigitRunAt(angularDep.value, k, run.value)
  {
    if angularDep.Some? {
      Text.FirstDigitRunSpec(angularDep.value);
    }
  }

  datatype MainBuilder = NgBuilderTypescript | RichappsNgnode

  function OldAngularMessage(angularCoreVersion: Option<string>): string {
    "You are currently using Angular " + (if angularCoreVersion.Some? then angularCoreVersion.value else "undefined")
    + " which has a bug that makes using @richapps/ngnode for the main code impossible."
    + " Upgrade Angular to version >=9 or use a different main builder."
  }

  /** `Number(v) < 9` for a digit run, or undefined (NaN, so never less than 9). */
  predicate BelowNine(angularCoreVersion: Option<string>)
    requires angularCoreVersion.Some? ==> Text.AllDigits(angularCoreVersion.value)
  {
    angularCoreVersion.Some? && Text.DigitsValue(angularCoreVersion.value) < 9
  }

  /** `getMainBuilderOptionOrPrompt` when the schematic runs non-interactively. */
  function MainBuilderOption(mainBuilder: Option<MainBuilder>, angularCoreVersion: Option<string>): Result<MainBuilder>
    requires angularCoreVersion.Some? ==> Text.AllDigits(angularCoreVersion.value)
  {
    var b := if mainBuilder.Some? then mainBuilder.value else NgBuilderTypescript;
    if b == RichappsNgnode && BelowNine(angularCoreVersion) then Err(Thrown(OldAngularMessage(angularCoreVersion)))
    else Ok(b)
  }

  /** Without a choice the TypeScript builder is taken and never refused; the
      webpack-based builder is refused exactly for an Angular major below 9, so
      an unknown Angular version lets it through. */
  lemma MainBuilderOptionSpec(mainBuilder: Option<MainBuilder>, angularCoreVersion: Option<string>)
    requires angularCoreVersion.Some? ==> Text.AllDigits(angularCoreVersion.value)
    ensures mainBuilder.None? ==> MainBuilderOption(mainBuilder, angularCoreVersion) == Ok(NgBuilderTypescript)
    ensures mainBuilder == Some(NgBuilderTypescript) ==> MainBuilderOption(mainBuilder, angularCoreVersion) == Ok(NgBuilderTypescript)
    ensures mainBuilder == Some(RichappsNgnode) ==>
      (MainBuilderOption(mainBuilder, angularCoreVersion).Err? <==>
         angularCoreVersion.Some? && Text.DigitsValue(angularCoreVersion.value) < 9)
    ensures mainBuilder == Some(RichappsNgnode) && angularCoreVersion.None? ==>
      MainBuilderOption(mainBuilder, angularCoreVersion) == Ok(RichappsNgnode)
  {
  }
}
