/**
  Options of the builders that reference a "build" target
  (src/builders/utils/build-target-options.ts): `normalizeBuildTargetOptions`
  folds `buildTargetOverrides` into `buildTarget` and deletes it.
 */
module BuildTargetOptionsModel {
  import opened Js
  import opened TargetRefs
  import opened BuildOptionsModel

  /** `string | { target, options?: PartialBuildOptions }`. */
  type BuildTarget = TargetSpec<BuildOptions>

  datatype BuildTargetOptions = BuildTargetOptions(
    buildTarget: BuildTarget,
    buildTargetOverrides: Option<BuildTarget>,
    others: JsonObject)  // every other key of the builder's options

  /** normalizeBuildOptions applied to options that may be absent. */
  function NormalizedIfPresent(o: Option<BuildOptions>): Result<Option<BuildOptions>> {
    if o.None? then Ok(None)
    else match Normalized(o.value)
      case Err(e) => Err(e)
      case Ok(n) => Ok(Some(n))
  }

  /** True when `buildTargetOverrides` is present and truthy. */
  predicate HasOverrides(options: BuildTargetOptions) {
    options.buildTargetOverrides.Some? && TruthyTarget(options.buildTargetOverrides.value)
  }

  /** normalizeBuildTargetOptions. The options of `buildTarget` are normalized;
      a truthy `buildTargetOverrides` replaces the target name when it has one and
      its normalized options are merged into the build target's options by
      mergeBuildOptions; the result's `buildTarget` is always an object and
      `buildTargetOverrides` is gone. */
  method NormalizeBuildTargetOptions(options: BuildTargetOptions) returns (r: Result<BuildTargetOptions>)
    ensures r.Ok? ==> r.value.buildTarget.Ref? && r.value.buildTargetOverrides.None? && r.value.others == options.others
    ensures var orig := GetTargetRef(options.buildTarget);
      var base := NormalizedIfPresent(orig.options);
      && (base.Err? ==> r == Err(base.error))
      && (base.Ok? && !HasOverrides(options) ==>
            r == Ok(BuildTargetOptions(Ref(TargetRef(orig.target, base.value)), None, options.others)))
      && (base.Ok? && HasOverrides(options) ==>
            var over := GetTargetRef(options.buildTargetOverrides.value);
            var target := if over.target.Some? then over.target else orig.target;
            if over.options.None? then
              r == Ok(BuildTargetOptions(Ref(TargetRef(target, base.value)), None, options.others))
            else
              var overOptions := Normalized(over.options.value);
              if overOptions.Err? then r == Err(overOptions.error)
              else
                var merged := MergedBuildOptions(base.value, Some(overOptions.value));
                if merged.Err? then r == Err(merged.error)
                else r == Ok(BuildTargetOptions(Ref(TargetRef(target, merged.value)), None, options.others)))
  {
    var buildTargetRef := GetTargetRef(options.buildTarget);
    if buildTargetRef.options.Some? {
      var n := NormalizeBuildOptions(buildTargetRef.options.value);
      if n.Err? {
        return Err(n.error);
      }
      buildTargetRef := buildTargetRef.(options := Some(n.value));
    }
    if options.buildTargetOverrides.Some? && TruthyTarget(options.buildTargetOverrides.value) {
      var overridesRef := GetTargetRef(options.buildTargetOverrides.value);
      buildTargetRef := buildTargetRef.(target := if overridesRef.target.Some? then overridesRef.target else buildTargetRef.target);
      if overridesRef.options.Some? {
        var n := NormalizeBuildOptions(overridesRef.options.value);
        if n.Err? {
          return Err(n.error);
        }
        var merged := MergeBuildOptions(buildTargetRef.options, Some(n.value));
        if merged.Err? {
          return Err(merged.error);
        }
        buildTargetRef := buildTargetRef.(options := merged.value);
      }
    }
    return Ok(BuildTargetOptions(Ref(buildTargetRef), None, options.others));
  }
}
