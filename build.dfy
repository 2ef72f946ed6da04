/**
  The one-shot "build" builder (src/builders/build/index.ts): the logger name
  of each renderer target, the verdict once every scheduled target has
  produced its result, and the optional depcheck step that copies missing
  dependencies from the workspace's package.json into the package.json of the
  build output.
 */
module OneShotBuild {
  import opened Js
  import Text

  datatype TargetType = Main | Renderer

  /** How a target type is written in messages. */
  function TypeName(t: TargetType): string {
    match t
    case Main => "main"
    case Renderer => "renderer"
  }

  /** The logger name of renderer target `i` (counting from 0) of `count`. */
  function RendererLoggerName(i: nat, count: nat): string {
    "Renderer" + (if count > 1 then " " + Text.NatToString(i + 1) else "")
  }

  /** A lone renderer is called "Renderer"; with several, each is numbered from
      1 and no two share a name. */
  lemma RendererLoggerNames(i: nat, j: nat, count: nat)
    requires i < count && j < count
    ensures count == 1 ==> RendererLoggerName(i, count) == "Renderer"
    ensures count > 1 ==> RendererLoggerName(i, count) == "Renderer " + Text.NatToString(i + 1)
    ensures count > 1 && i != j ==> RendererLoggerName(i, count) != RendererLoggerName(j, count)
  {
    if count > 1 {
      NumberedName(i, count);
      NumberedName(j, count);
      if i != j && RendererLoggerName(i, count) == RendererLoggerName(j, count) {
        Text.NatToStringInjective(i + 1, j + 1);
      }
    }
  }

  lemma NumberedName(i: nat, count: nat)
    requires count > 1
    ensures RendererLoggerName(i, count) == "Renderer " + Text.NatToString(i + 1)
    ensures RendererLoggerName(i, count)[9..] == Text.NatToString(i + 1)
  {
    var a := Text.NatToString(i + 1);
    assert "Renderer" + (" " + a) == "Renderer " + a;
  }

  /** The final output of one scheduled target. `target` is the target string of
      its reference, which may be undefined. */
  datatype TargetResult = TargetResult(targetType: TargetType, target: Option<string>, success: bool)

  /** `results.filter((result) => !result.output.success)`. */
  function FailedTargets(results: seq<TargetResult>): (f: seq<TargetResult>)
    ensures |f| <= |results|
    ensures forall r :: r in f ==> r in results && !r.success
    ensures forall r :: r in results && !r.success ==> r in f
  {
    if results == [] then []
    else
      var rest := FailedTargets(results[1..]);
      if results[0].success then rest else [results[0]] + rest
  }

  /** A value interpolated into a template string; undefined shows as "undefined". */
  function TemplateString(s: Option<string>): string {
    if s.Some? then s.value else "undefined"
  }

  /** "target (type)" for one failed target. */
  function Label(r: TargetResult): string {
    TemplateString(r.target) + " (" + TypeName(r.targetType) + ")"
  }

  function Labels(rs: seq<TargetResult>): (ls: seq<string>)
    ensures |ls| == |rs|
  {
    seq(|rs|, i requires 0 <= i < |rs| => Label(rs[i]))
  }

  /** What happens once every target has finished: the build fails with a
      logged error, succeeds, or goes on to depcheck. */
  datatype Verdict = Failed(error: string) | Passed | RunDepcheck

  function FailedTargetsMessage(results: seq<TargetResult>): string {
    "The following targets failed to build: " + Text.Join(Labels(FailedTargets(results)), ", ")
  }

  function MissingMainMessage(mainPath: string): string {
    "All targets finished, but main file " + mainPath + " does not exist. Wrong configuration?"
  }

  function BuildVerdict(results: seq<TargetResult>, mainExists: bool, mainPath: string, depcheck: bool): Verdict {
    if FailedTargets(results) != [] then Failed(FailedTargetsMessage(results))
    else if !mainExists then Failed(MissingMainMessage(mainPath))
    else if !depcheck then Passed
    else RunDepcheck
  }

  /** The build fails exactly when some target failed or the main file is
      missing; failed targets take precedence and the message names exactly the
      failed targets, in result order; with every target built and the main file
      present the build passes, or runs depcheck when that is enabled. */
  lemma BuildVerdictSpec(results: seq<TargetResult>, mainExists: bool, mainPath: string, depcheck: bool)
    ensures var v := BuildVerdict(results, mainExists, mainPath, depcheck);
      && (v.Failed? <==> (exists r :: r in results && !r.success) || !mainExists)
      && ((exists r :: r in results && !r.success) ==> v == Failed(FailedTargetsMessage(results)))
      && ((forall r :: r in results ==> r.success) && !mainExists ==> v == Failed(MissingMainMessage(mainPath)))
      && ((forall r :: r in results ==> r.success) && mainExists ==> v == if depcheck then RunDepcheck else Passed)
  {
    if exists r :: r in results && !r.success {
      var r :| r in results && !r.success;
      assert r in FailedTargets(results);
    }
  }

  /** The filter keeps the failed results in their order and with their
      multiplicity: it distributes over concatenation, and keeps a single
      result exactly when it failed. The failure message lists these labels in
      that order. */
  lemma {:induction false} FailedTargetsAppend(a: seq<TargetResult>, b: seq<TargetResult>)
    ensures FailedTargets(a + b) == FailedTargets(a) + FailedTargets(b)
  {
    if a == [] {
      assert a + b == b;
    } else {
      FailedTargetsAppend(a[1..], b);
      assert (a + b)[1..] == a[1..] + b;
      FailedTargetsCons(a + b);
      FailedTargetsCons(a);
    }
  }

  /** One unfolding of the filter, at the head. */
  lemma FailedTargetsCons(rs: seq<TargetResult>)
    requires rs != []
    ensures FailedTargets(rs) == (if rs[0].success then [] else [rs[0]]) + FailedTargets(rs[1..])
  {
  }

  lemma FailedTargetsSingle(r: TargetResult)
    ensures FailedTargets([r]) == if r.success then [] else [r]
  {
    assert [r][1..] == [];
  }

  /** A dependency found in the workspace's package.json. */
  datatype Dep = Dep(name: string, version: string)

  /** The missing dependencies that have a version in `root`, in order. */
  function Versioned(missing: seq<string>, root: map<string, string>): seq<Dep> {
    if missing == [] then []
    else
      var n := missing[|missing| - 1];
      Versioned(missing[..|missing| - 1], root) + (if n in root then [Dep(n, root[n])] else [])
  }

  /** The missing dependencies that have no version in `root`, in order. */
  function Unversioned(missing: seq<string>, root: map<string, string>): seq<string> {
    if missing == [] then []
    else
      var n := missing[|missing| - 1];
      Unversioned(missing[..|missing| - 1], root) + (if n in root then [] else [n])
  }

  /** `deps[dep.name] = dep.version` for each dep in turn. */
  function Assigned(base: map<string, string>, deps: seq<Dep>): map<string, string> {
    if deps == [] then base
    else Assigned(base, deps[..|deps| - 1])[deps[|deps| - 1].name := deps[|deps| - 1].version]
  }

  /** The names of `deps`. */
  function Names(deps: seq<Dep>): set<string> {
    set j | 0 <= j < |deps| :: deps[j].name
  }

  /** Exactly the versioned missing dependencies, with their root versions, and
      exactly the unversioned ones are found, in order. */
  lemma VersionedSpec(missing: seq<string>, root: map<string, string>)
    ensures forall d :: d in Versioned(missing, root) ==> d.name in missing && d.name in root && d.version == root[d.name]
    ensures Names(Versioned(missing, root)) == set n | n in missing && n in root
    ensures forall n :: n in Unversioned(missing, root) <==> n in missing && n !in root
    ensures |Versioned(missing, root)| + |Unversioned(missing, root)| == |missing|
  {
    VersionedNames(missing, root);
    UnversionedMembers(missing, root);
    SplitCount(missing, root);
  }

  lemma {:induction false} VersionedNames(missing: seq<string>, root: map<string, string>)
    ensures forall d :: d in Versioned(missing, root) ==> d.name in missing && d.name in root && d.version == root[d.name]
    ensures Names(Versioned(missing, root)) == set n | n in missing && n in root
  {
    if missing != [] {
      var init := missing[..|missing| - 1];
      var n := missing[|missing| - 1];
      VersionedNames(init, root);
      assert missing == init + [n];
      assert (set x | x in missing && x in root) == (set x | x in init && x in root) + (if n in root then {n} else {});
      if n in root {
        assert Versioned(missing, root) == Versioned(init, root) + [Dep(n, root[n])];
        NamesSnoc(Versioned(init, root), Dep(n, root[n]));
      } else {
        assert Versioned(missing, root) == Versioned(init, root);
      }
    }
  }

  lemma {:induction false} UnversionedMembers(missing: seq<string>, root: map<string, string>)
    ensures forall n :: n in Unversioned(missing, root) <==> n in missing && n !in root
  {
    if missing != [] {
      var init := missing[..|missing| - 1];
      UnversionedMembers(init, root);
      assert missing == init + [missing[|missing| - 1]];
    }
  }

  lemma {:induction false} SplitCount(missing: seq<string>, root: map<string, string>)
    ensures |Versioned(missing, root)| + |Unversioned(missing, root)| == |missing|
  {
    if missing != [] {
      SplitCount(missing[..|missing| - 1], root);
    }
  }

  /** Assigning dependencies whose versions are all taken from `root` gives the
      root version for each assigned name and keeps every other entry. */
  lemma {:induction false} AssignedSpec(base: map<string, string>, deps: seq<Dep>, root: map<string, string>)
    requires forall d :: d in deps ==> d.name in root && d.version == root[d.name]
    ensures Assigned(base, deps) == RootOver(base, Names(deps), root)
  {
    if deps != [] {
      var init := deps[..|deps| - 1];
      var d := deps[|deps| - 1];
      assert deps == init + [d];
      assert forall e :: e in init ==> e in deps;
      AssignedSpec(base, init, root);
      NamesSnoc(init, d);
      assert d in deps;
      RootOverAdd(base, Names(init), d.name, root);
    }
  }

  /** `base` with the root version of every name in `names` added or overwritten. */
  function RootOver(base: map<string, string>, names: set<string>, root: map<string, string>): map<string, string>
    requires names <= root.Keys
  {
    map k | k in base.Keys + names :: if k in names then root[k] else base[k]
  }

  lemma RootOverAdd(base: map<string, string>, names: set<string>, n: string, root: map<string, string>)
    requires names <= root.Keys && n in root
    ensures RootOver(base, names, root)[n := root[n]] == RootOver(base, names + {n}, root)
  {
  }

  lemma NamesSnoc(init: seq<Dep>, d: Dep)
    ensures Names(init + [d]) == Names(init) + {d.name}
  {
    var deps := init + [d];
    forall x | x in Names(deps) ensures x in Names(init) + {d.name} {
      var j :| 0 <= j < |deps| && deps[j].name == x;
      if j < |init| { assert init[j] == deps[j]; }
    }
    forall x | x in Names(init) + {d.name} ensures x in Names(deps) {
      if x == d.name { assert deps[|init|].name == x; }
      else { var j :| 0 <= j < |init| && init[j].name == x; assert deps[j] == init[j]; }
    }
  }

  /** "dependency" for exactly one, "dependencies" otherwise. */
  function Noun(count: nat): string {
    if count == 1 then "dependency" else "dependencies"
  }

  function AddedHeader(count: nat): string {
    "Found " + Text.NatToString(count) + " used " + Noun(count) + " that will be added to final package.json:"
  }

  /** The warning header as written: its noun follows the number of ADDED
      dependencies, not the number it reports. */
  function UnversionedHeaderAsWritten(added: nat, unversioned: nat): string {
    "Found " + Text.NatToString(unversioned) + " used " + Noun(added) + " that were not found in root package.json:"
  }

  /** The warning header with its noun following the number it reports. */
  function UnversionedHeader(unversioned: nat): string {
    "Found " + Text.NatToString(unversioned) + " used " + Noun(unversioned) + " that were not found in root package.json:"
  }

  /** With dependencies a, b and c missing and only a in the workspace's
      package.json, the depcheck step as written warns about two dependencies
      with the singular noun. */
  lemma UnversionedHeaderAsWrittenMisagrees()
    ensures var r := DepsMerged(["a", "b", "c"], Some(map["a" := "1.0.0"]), None);
      && r.Ok? && |r.value.warnings| == 2
      && r.value.warnings[0] == UnversionedHeaderAsWritten(1, 2)
      && Text.NatToString(2) == "2"
      && UnversionedHeaderAsWritten(1, 2)[|Text.NatToString(2)| + 12..][..10] == "dependency"
  {
    ExampleCounts();
    assert Text.NatToString(2) == [Text.DigitChar(2)] == "2";
    var h := UnversionedHeaderAsWritten(1, 2);
    assert h == ("Found " + "2" + " used ") + ("dependency" + " that were not found in root package.json:");
    assert h[13..][..10] == "dependency";
  }

  lemma ExampleCounts()
    ensures |Versioned(["a", "b", "c"], map["a" := "1.0.0"])| == 1
    ensures |Unversioned(["a", "b", "c"], map["a" := "1.0.0"])| == 2
  {
    var root := map["a" := "1.0.0"];
    assert ["a", "b", "c"][..2] == ["a", "b"] && ["a", "b"][..1] == ["a"] && ["a"][..0] == [];
    assert Versioned(["a"], root) == [Dep("a", "1.0.0")];
    assert Versioned(["a", "b"], root) == [Dep("a", "1.0.0")];
    assert Unversioned(["a"], root) == [];
    assert Unversioned(["a", "b"], root) == ["b"];
  }

  /** The corrected warning uses the singular noun exactly when it reports one
      dependency. */
  lemma UnversionedHeaderAgrees(unversioned: nat)
    ensures UnversionedHeader(unversioned)[|Text.NatToString(unversioned)| + 12..][..10] == "dependency"
            <==> unversioned == 1
  {
    var head := "Found " + Text.NatToString(unversioned) + " used ";
    var rest := Noun(unversioned) + " that were not found in root package.json:";
    assert UnversionedHeader(unversioned) == head + rest;
    assert |head| == |Text.NatToString(unversioned)| + 12;
    assert (head + rest)[|head|..] == rest;
    if unversioned == 1 {
      assert rest[..10] == "dependency";
    } else {
      assert rest[9] == 'i';
    }
  }

  /** "- name: version" lines and "- name" lines. */
  function AddedLines(deps: seq<Dep>): (ls: seq<string>)
    ensures |ls| == |deps|
  {
    seq(|deps|, i requires 0 <= i < |deps| => "- " + deps[i].name + ": " + deps[i].version)
  }

  function UnversionedLines(names: seq<string>): (ls: seq<string>)
    ensures |ls| == |names|
  {
    seq(|names|, i requires 0 <= i < |names| => "- " + names[i])
  }

  /** What the depcheck step writes and logs about missing dependencies. */
  datatype DepsOutcome = DepsOutcome(written: Option<map<string, string>>, info: seq<string>, warnings: seq<string>)

  /** The missing-dependency part of the depcheck step. `rootDeps` is the
      `dependencies` of the workspace's package.json (None when it has none),
      `finalDeps` that of the output's package.json (None when falsy). */
  function DepsMerged(missing: seq<string>, rootDeps: Option<map<string, string>>,
                      finalDeps: Option<map<string, string>>): Result<DepsOutcome> {
    if missing == [] then Ok(DepsOutcome(None, [], []))
    else if rootDeps.None? then Err(TypeError)
    else
      var add := Versioned(missing, rootDeps.value);
      var unv := Unversioned(missing, rootDeps.value);
      var base := if finalDeps.Some? then finalDeps.value else map[];
      Ok(DepsOutcome(
        if add != [] then Some(Assigned(base, add)) else None,
        if add != [] then [AddedHeader(|add|), Text.Join(AddedLines(add), "\n")] else [],
        if unv != [] then [UnversionedHeaderAsWritten(|add|, |unv|), Text.Join(UnversionedLines(unv), "\n")] else []))
  }

  /** Reading a version from an absent `dependencies` object throws exactly when
      some dependency is missing; otherwise the output's package.json is
      rewritten exactly when some missing dependency has a root version, and
      then its dependencies are the previous ones with the root version of
      every such dependency added or overwritten; one warning pair is logged
      exactly when some missing dependency has no root version. */
  lemma DepsMergedSpec(missing: seq<string>, rootDeps: Option<map<string, string>>,
                       finalDeps: Option<map<string, string>>)
    ensures var r := DepsMerged(missing, rootDeps, finalDeps);
      && (r.Err? <==> missing != [] && rootDeps.None?)
      && (r.Ok? && rootDeps.None? ==> r.value == DepsOutcome(None, [], []))
      && (r.Ok? && rootDeps.Some? ==>
            var root := rootDeps.value;
            var base := if finalDeps.Some? then finalDeps.value else map[];
            var found := set n | n in missing && n in root;
            && (r.value.written.Some? <==> found != {})
            && (r.value.written.Some? ==>
                  r.value.written.value == RootOver(base, found, root))
            && (r.value.warnings != [] <==> exists n :: n in missing && n !in root)
            && (r.value.warnings != [] ==>
                  r.value.warnings[0] == UnversionedHeaderAsWritten(|Versioned(missing, root)|, |Unversioned(missing, root)|)))
  {
    if missing != [] && rootDeps.Some? {
      var root := rootDeps.value;
      VersionedSpec(missing, root);
      var add := Versioned(missing, root);
      var base := if finalDeps.Some? then finalDeps.value else map[];
      if add != [] {
        assert add[0].name in Names(add);
        AssignedSpec(base, add, root);
      }
      var unv := Unversioned(missing, root);
      if unv != [] {
        assert unv[0] in unv;
      }
    }
  }

  /** The depcheck step, as the code performs it: collect the versioned and
      unversioned missing dependencies, then assign the versioned ones into the
      output's dependencies one by one; the warning header is the one the code
      writes, with its noun chosen from the number of added dependencies. */
  method MergeMissingDependencies(missing: seq<string>, rootDeps: Option<map<string, string>>,
                                  finalDeps: Option<map<string, string>>) returns (r: Result<DepsOutcome>)
    ensures r == DepsMerged(missing, rootDeps, finalDeps)
  {
    if |missing| == 0 {
      return Ok(DepsOutcome(None, [], []));
    }
    if rootDeps.None? {
      return Err(TypeError);
    }
    var add, unv := SplitByRootVersion(missing, rootDeps.value);
    var written: Option<map<string, string>> := None;
    var info: seq<string> := [];
    if |add| > 0 {
      info := [AddedHeader(|add|), Text.Join(AddedLines(add), "\n")];
      var deps := AssignDeps(if finalDeps.Some? then finalDeps.value else map[], add);
      written := Some(deps);
    }
    var warnings: seq<string> := [];
    if |unv| > 0 {
      warnings := [UnversionedHeaderAsWritten(|add|, |unv|), Text.Join(UnversionedLines(unv), "\n")];
    }
    return Ok(DepsOutcome(written, info, warnings));
  }

  /** The `map` and the two `filter`s over the missing names. */
  method SplitByRootVersion(missing: seq<string>, root: map<string, string>)
    returns (add: seq<Dep>, unv: seq<string>)
    ensures add == Versioned(missing, root) && unv == Unversioned(missing, root)
  {
    add, unv := [], [];
    var i := 0;
    while i < |missing|
      invariant 0 <= i <= |missing|
      invariant add == Versioned(missing[..i], root)
      invariant unv == Unversioned(missing[..i], root)
    {
      assert missing[..i + 1][..i] == missing[..i];
      var name := missing[i];
      if name in root {
        add := add + [Dep(name, root[name])];
      } else {
        unv := unv + [name];
      }
      i := i + 1;
    }
    assert missing[..i] == missing;
  }

  /** The `reduce` that assigns every versioned dependency into `deps`. */
  method AssignDeps(base: map<string, string>, add: seq<Dep>) returns (deps: map<string, string>)
    ensures deps == Assigned(base, add)
  {
    deps := base;
    var j := 0;
    while j < |add|
      invariant 0 <= j <= |add|
      invariant deps == Assigned(base, add[..j])
    {
      assert add[..j + 1][..j] == add[..j];
      deps := deps[add[j].name := add[j].version];
      j := j + 1;
    }
    assert add[..j] == add;
  }

  /** The builder's final `success`: false on a failed verdict, true when it
      passes; in the depcheck branch true whatever depcheck finds, unless the
      version lookup throws, which the error handler turns into false. */
  function BuildSuccess(results: seq<TargetResult>, mainExists: bool, mainPath: string, depcheck: bool,
                        missing: seq<string>, rootDeps: Option<map<string, string>>,
                        finalDeps: Option<map<string, string>>): bool {
    match BuildVerdict(results, mainExists, mainPath, depcheck)
    case Failed(_) => false
    case Passed => true
    case RunDepcheck => DepsMerged(missing, rootDeps, finalDeps).Ok?
  }

  /** With every target built and the main file present, the depcheck branch
      succeeds whatever it reports, except when dependencies are missing and the
      workspace's package.json has no `dependencies`. */
  lemma DepcheckBranchSucceeds(results: seq<TargetResult>, mainPath: string,
                               missing: seq<string>, rootDeps: Option<map<string, string>>,
                               finalDeps: Option<map<string, string>>)
    requires forall r :: r in results ==> r.success
    ensures BuildSuccess(results, true, mainPath, true, missing, rootDeps, finalDeps)
            <==> !(missing != [] && rootDeps.None?)
    ensures BuildSuccess(results, true, mainPath, false, missing, rootDeps, finalDeps)
  {
    BuildVerdictSpec(results, true, mainPath, true);
    BuildVerdictSpec(results, true, mainPath, false);
    DepsMergedSpec(missing, rootDeps, finalDeps);
  }
}
