/**
  Options of the "build" builder (src/builders/build/options.ts):
  `mergeBuildOptions`, which lays partial build options over full or partial
  ones, and `normalizeBuildOptions`, which folds the `*Overrides` keys into the
  keys they override.

  An options object is a record: the four keys that the merge treats specially
  are typed fields (`None` = key absent), every other key lives in `others`.
 */
module BuildOptionsModel {
  import opened Js
  import opened TargetRefs
  import MergeOptions

  /** A main or renderer target option: `string | Partial<TargetRef>`. */
  type Target = TargetSpec<JsonObject>

  datatype BuildOptions = BuildOptions(
    mainTarget: Option<Target>,
    rendererTargets: Option<seq<Target>>,
    mainTargetOverrides: Option<Target>,
    rendererTargetsOverrides: Option<seq<Target>>,
    others: JsonObject)  // every key other than the four above

  /** `{}`. */
  function EmptyOptions(): BuildOptions {
    BuildOptions(None, None, None, None, map[])
  }

  function Max(a: nat, b: nat): nat { if a < b then b else a }

  /** The target object built for an existing target `original` and an `override`:
      the override's target name if it has one, else the old one, and the two
      option bags merged by mergeOptions. */
  function MergeTarget(original: Target, override: Target): Target {
    var o := GetTargetRef(original);
    var n := GetTargetRef(override);
    Ref(TargetRef(if n.target.Some? then n.target else o.target, Some(MergeOptions.Merged(o.options, n.options))))
  }

  /** One pass of the renderer loop, at index `i` with override entry `ov`. The
      existence test reads the CURRENT array, which the loop itself may have grown. */
  function RendererStep(cur: seq<Target>, ov: Target, i: nat): seq<Target> {
    if i < |cur| && TruthyTarget(cur[i]) then
      (if TruthyTarget(ov) then cur[i := MergeTarget(cur[i], ov)] else cur)
    else
      cur + [Ref(GetTargetRef(ov))]
  }

  /** The renderer array after the loop has run from index `i` to the end of `ov`. */
  function MergedRenderers(cur: seq<Target>, ov: seq<Target>, i: nat): seq<Target>
    decreases |ov| - i
  {
    if i >= |ov| then cur else MergedRenderers(RendererStep(cur, ov[i], i), ov, i + 1)
  }

  /** True when `a` has at least one key. */
  predicate HasKeys(a: BuildOptions) {
    a != EmptyOptions()
  }

  /** What mergeBuildOptions returns: a falsy `additionalOptions` returns
      `options`; otherwise every key of `additionalOptions` is applied to
      `options`. A TypeError arises when a key must be applied to an absent
      `options`, or an absent `mainTarget` / `rendererTargets` must be read. */
  function MergedBuildOptions(options: Option<BuildOptions>, additional: Option<BuildOptions>)
    : (r: Result<Option<BuildOptions>>)
    ensures options.Some? && r.Ok? ==> r.value.Some?
  {
    if additional.None? then Ok(options)
    else
      var a := additional.value;
      var touchesRenderers := a.rendererTargets.Some? && |a.rendererTargets.value| > 0;
      if options.None? then
        (if a.mainTarget.Some? || touchesRenderers || a.mainTargetOverrides.Some?
            || a.rendererTargetsOverrides.Some? || a.others != map[]
         then Err(TypeError) else Ok(None))
      else
        var o := options.value;
        if a.mainTarget.Some? && o.mainTarget.None? then Err(TypeError)
        else if touchesRenderers && o.rendererTargets.None? then Err(TypeError)
        else Ok(Some(BuildOptions(
          if a.mainTarget.Some? then Some(MergeTarget(o.mainTarget.value, a.mainTarget.value)) else o.mainTarget,
          if a.rendererTargets.Some? && o.rendererTargets.Some?
          then Some(MergedRenderers(o.rendererTargets.value, a.rendererTargets.value, 0))
          else o.rendererTargets,
          if a.mainTargetOverrides.Some? then a.mainTargetOverrides else o.mainTargetOverrides,
          if a.rendererTargetsOverrides.Some? then a.rendererTargetsOverrides else o.rendererTargetsOverrides,
          o.others + a.others)))
  }

  /** `others` after the keys `done` of `add` have been assigned into it. */
  function AssignKeys(base: JsonObject, add: JsonObject, done: set<string>): JsonObject
    requires done <= add.Keys
  {
    base + map k | k in done :: add[k]
  }

  /** The renderer loop of mergeBuildOptions over `options.rendererTargets`. */
  method MergeRendererTargets(original: seq<Target>, ov: seq<Target>) returns (cur: seq<Target>)
    ensures cur == MergedRenderers(original, ov, 0)
  {
    cur := original;
    var i := 0;
    while i < |ov|
      invariant 0 <= i <= |ov|
      invariant MergedRenderers(cur, ov, i) == MergedRenderers(original, ov, 0)
    {
      if i < |cur| && TruthyTarget(cur[i]) {
        if !TruthyTarget(ov[i]) {
          i := i + 1;
          continue;
        }
        // options/overrides for an existing renderer target
        cur := cur[i := MergeTarget(cur[i], ov[i])];
      } else {
        // an additional renderer target
        cur := cur + [Ref(GetTargetRef(ov[i]))];
      }
      i := i + 1;
    }
  }

  /** The assignment `options[prop] = additionalOptions[prop]` for every plain key. */
  method AssignPlainKeys(base: JsonObject, add: JsonObject) returns (others: JsonObject)
    ensures others == base + add
  {
    var props := add.Keys;
    others := base;
    assert others == AssignKeys(base, add, {});
    while props != {}
      invariant props <= add.Keys
      invariant others == AssignKeys(base, add, add.Keys - props)
      decreases props
    {
      var prop :| prop in props;
      props := props - {prop};
      others := others[prop := add[prop]];
    }
    assert AssignKeys(base, add, add.Keys) == base + add;
  }

  /** mergeBuildOptions: walks the keys of `additional`, merging `mainTarget`,
      merging `rendererTargets` index by index (appending extra entries), and
      assigning every other key. */
  method MergeBuildOptions(options: Option<BuildOptions>, additional: Option<BuildOptions>)
    returns (r: Result<Option<BuildOptions>>)
    ensures r == MergedBuildOptions(options, additional)
  {
    if additional.None? {
      return Ok(options);
    }
    var a := additional.value;
    if options.None? {
      // the first key of `additional` that writes into `options` fails
      if a.mainTarget.Some? || (a.rendererTargets.Some? && |a.rendererTargets.value| > 0)
        || a.mainTargetOverrides.Some? || a.rendererTargetsOverrides.Some? || a.others != map[] {
        return Err(TypeError);
      }
      return Ok(None);
    }
    var o := options.value;
    var mainTarget := o.mainTarget;
    if a.mainTarget.Some? {
      if o.mainTarget.None? {
        return Err(TypeError);
      }
      mainTarget := Some(MergeTarget(o.mainTarget.value, a.mainTarget.value));
    }
    var rendererTargets := o.rendererTargets;
    if a.rendererTargets.Some? {
      if |a.rendererTargets.value| > 0 && o.rendererTargets.None? {
        return Err(TypeError);
      }
      if o.rendererTargets.Some? {
        var merged := MergeRendererTargets(o.rendererTargets.value, a.rendererTargets.value);
        rendererTargets := Some(merged);
      }
    }
    var mainTargetOverrides := if a.mainTargetOverrides.Some? then a.mainTargetOverrides else o.mainTargetOverrides;
    var rendererTargetsOverrides :=
      if a.rendererTargetsOverrides.Some? then a.rendererTargetsOverrides else o.rendererTargetsOverrides;
    var others := AssignPlainKeys(o.others, a.others);
    return Ok(Some(BuildOptions(mainTarget, rendererTargets, mainTargetOverrides, rendererTargetsOverrides, others)));
  }

  /** `options` after a full pass of the renderer loop when every original entry
      is truthy: entry `j` is merged with a truthy override `ov[j]`, kept
      otherwise, and the overrides past the end are appended. `n` is how many
      override entries have been visited. */
  function ByIndex(cur: seq<Target>, ov: seq<Target>, n: nat): seq<Target>
    requires n <= |ov|
  {
    seq(Max(|cur|, n), j requires 0 <= j < Max(|cur|, n) =>
      if j < |cur| then (if j < n && TruthyTarget(ov[j]) then MergeTarget(cur[j], ov[j]) else cur[j])
      else Ref(GetTargetRef(ov[j])))
  }

  lemma ByIndexStep(cur: seq<Target>, ov: seq<Target>, n: nat)
    requires forall j :: 0 <= j < |cur| ==> TruthyTarget(cur[j])
    requires n < |ov|
    ensures RendererStep(ByIndex(cur, ov, n), ov[n], n) == ByIndex(cur, ov, n + 1)
  {
    var before := ByIndex(cur, ov, n);
    var after := ByIndex(cur, ov, n + 1);
    if n < |cur| {
      assert before[n] == cur[n];
    } else {
      assert |before| == n;
      assert RendererStep(before, ov[n], n) == before + [Ref(GetTargetRef(ov[n]))];
    }
  }

  lemma {:induction false} ByIndexRest(cur: seq<Target>, ov: seq<Target>, n: nat)
    requires forall j :: 0 <= j < |cur| ==> TruthyTarget(cur[j])
    requires n <= |ov|
    ensures MergedRenderers(ByIndex(cur, ov, n), ov, n) == ByIndex(cur, ov, |ov|)
    decreases |ov| - n
  {
    if n < |ov| {
      ByIndexStep(cur, ov, n);
      ByIndexRest(cur, ov, n + 1);
    }
  }

  /** The renderer merge with truthy original entries: an original entry with a
      truthy override at its index is merged with it, one with a falsy override
      or beyond the override array is unchanged, and override entries past the
      original array are appended in order. */
  lemma RendererMergeByIndex(cur: seq<Target>, ov: seq<Target>)
    requires forall j :: 0 <= j < |cur| ==> TruthyTarget(cur[j])
    ensures |MergedRenderers(cur, ov, 0)| == Max(|cur|, |ov|)
    ensures forall j :: 0 <= j < |cur| && j < |ov| && TruthyTarget(ov[j]) ==>
      MergedRenderers(cur, ov, 0)[j] == MergeTarget(cur[j], ov[j])
    ensures forall j :: 0 <= j < |cur| && (j >= |ov| || !TruthyTarget(ov[j])) ==>
      MergedRenderers(cur, ov, 0)[j] == cur[j]
    ensures forall j :: |cur| <= j < |ov| ==>
      MergedRenderers(cur, ov, 0)[j] == Ref(GetTargetRef(ov[j]))
  {
    assert ByIndex(cur, ov, 0) == cur;
    ByIndexRest(cur, ov, 0);
  }

  /** With an empty-string original entry the loop appends the override at that
      index, and the next override is then merged into the appended entry. */
  lemma FalsyOriginalEntryShiftsOverrides()
    ensures MergedRenderers([Name("")], [Name("a"), Name("b")], 0)
      == [Name(""), Ref(TargetRef(Some("b"), Some(map[])))]
  {
  }

  /** A falsy `additionalOptions` returns `options` itself. */
  lemma MergeWithFalsyAdditional(options: Option<BuildOptions>)
    ensures MergedBuildOptions(options, None) == Ok(options)
  {
  }

  /** Every key of `additionalOptions` other than the two target keys overwrites
      the same key; keys it does not have keep their values. */
  lemma MergeOverwritesPlainKeys(o: BuildOptions, a: BuildOptions)
    requires MergedBuildOptions(Some(o), Some(a)).Ok?
    ensures var m := MergedBuildOptions(Some(o), Some(a)).value.value;
      && (forall k :: k in a.others ==> k in m.others && m.others[k] == a.others[k])
      && (forall k :: k in o.others && k !in a.others ==> k in m.others && m.others[k] == o.others[k])
      && m.others.Keys == o.others.Keys + a.others.Keys
      && (a.mainTargetOverrides.Some? ==> m.mainTargetOverrides == a.mainTargetOverrides)
      && (a.rendererTargetsOverrides.Some? ==> m.rendererTargetsOverrides == a.rendererTargetsOverrides)
  {
  }

  /** An override of `mainTarget` fails without an original main target;
      otherwise the merged target takes the override's name when defined, else
      the original's, and its options are mergeOptions of the two. */
  lemma MergeMainTarget(o: BuildOptions, a: BuildOptions)
    requires a.mainTarget.Some?
    ensures MergedBuildOptions(Some(o), Some(a)).Err? <==>
      (o.mainTarget.None? || (a.rendererTargets.Some? && |a.rendererTargets.value| > 0 && o.rendererTargets.None?))
    ensures MergedBuildOptions(Some(o), Some(a)).Ok? ==>
      var m := MergedBuildOptions(Some(o), Some(a)).value.value;
      var orig := GetTargetRef(o.mainTarget.value);
      var over := GetTargetRef(a.mainTarget.value);
      && m.mainTarget.Some? && m.mainTarget.value.Ref?
      && m.mainTarget.value.ref.target == (if over.target.Some? then over.target else orig.target)
      && m.mainTarget.value.ref.options == Some(MergeOptions.Merged(orig.options, over.options))
  {
  }

  /** Options without any key leave `options` as they are. */
  lemma MergeEmptyIsIdentity(options: Option<BuildOptions>)
    ensures MergedBuildOptions(options, Some(EmptyOptions())) == Ok(options)
  {
    if options.Some? {
      assert options.value.others + map[] == options.value.others;
    }
  }

  /** The partial options normalizeBuildOptions merges in: `mainTarget` from a
      truthy `mainTargetOverrides`, `rendererTargets` from `rendererTargetsOverrides`
      (an array is always truthy). */
  function OverridesOf(o: BuildOptions): BuildOptions {
    BuildOptions(
      if o.mainTargetOverrides.Some? && TruthyTarget(o.mainTargetOverrides.value) then o.mainTargetOverrides else None,
      o.rendererTargetsOverrides,
      None, None, map[])
  }

  /** What normalizeBuildOptions returns. */
  function Normalized(o: BuildOptions): Result<BuildOptions> {
    match MergedBuildOptions(Some(o), Some(OverridesOf(o)))
    case Err(e) => Err(e)
    case Ok(m) => Ok(m.value.(mainTargetOverrides := None, rendererTargetsOverrides := None))
  }

  /** normalizeBuildOptions: merge the overrides in, then delete both override keys. */
  method NormalizeBuildOptions(options: BuildOptions) returns (r: Result<BuildOptions>)
    ensures r == Normalized(options)
  {
    var overrides := EmptyOptions();
    if options.mainTargetOverrides.Some? && TruthyTarget(options.mainTargetOverrides.value) {
      overrides := overrides.(mainTarget := options.mainTargetOverrides);
    }
    if options.rendererTargetsOverrides.Some? {
      overrides := overrides.(rendererTargets := options.rendererTargetsOverrides);
    }
    var merged := MergeBuildOptions(Some(options), Some(overrides));
    if merged.Err? {
      return Err(merged.error);
    }
    var n := merged.value.value;
    n := n.(mainTargetOverrides := None, rendererTargetsOverrides := None);
    return Ok(n);
  }

  /** Normalization removes both override keys and keeps every other plain key. */
  lemma NormalizedDropsOverrideKeys(o: BuildOptions)
    requires Normalized(o).Ok?
    ensures Normalized(o).value.mainTargetOverrides.None?
    ensures Normalized(o).value.rendererTargetsOverrides.None?
    ensures Normalized(o).value.others == o.others
  {
  }

  /** A truthy `mainTargetOverrides` is folded into `mainTarget` (and needs one
      to exist); without one, `mainTarget` is unchanged. The same holds for
      `rendererTargetsOverrides` and `rendererTargets`. */
  lemma NormalizedFoldsOverrides(o: BuildOptions)
    ensures Normalized(o).Err? <==>
      ((o.mainTargetOverrides.Some? && TruthyTarget(o.mainTargetOverrides.value) && o.mainTarget.None?)
       || (o.rendererTargetsOverrides.Some? && |o.rendererTargetsOverrides.value| > 0 && o.rendererTargets.None?))
    ensures Normalized(o).Ok? ==>
      && Normalized(o).value.mainTarget ==
           (if o.mainTargetOverrides.Some? && TruthyTarget(o.mainTargetOverrides.value)
            then Some(MergeTarget(o.mainTarget.value, o.mainTargetOverrides.value))
            else o.mainTarget)
      && Normalized(o).value.rendererTargets ==
           (if o.rendererTargetsOverrides.Some? && o.rendererTargets.Some?
            then Some(MergedRenderers(o.rendererTargets.value, o.rendererTargetsOverrides.value, 0))
            else o.rendererTargets)
  {
  }

  /** Normalizing normalized options changes nothing. */
  lemma NormalizedIdempotent(o: BuildOptions)
    requires Normalized(o).Ok?
    ensures Normalized(Normalized(o).value) == Normalized(o)
  {
    var n := Normalized(o).value;
    assert OverridesOf(n) == EmptyOptions();
    assert n.others + map[] == n.others;
  }
}
