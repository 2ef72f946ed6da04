/**
  `mergeOptions(a, b)` (src/builders/utils/merge-options.ts): a shallow copy of
  `a` overlaid with the values of `b`, where a value of `b` that is `undefined`
  or an empty array is ignored (the host framework fills unset schema options
  with exactly those values).
 */
module MergeOptions {
  import opened Js

  /** A value of `b` that the merge ignores. */
  predicate Skipped(v: Json) {
    v == Undefined || (v.Arr? && |v.items| == 0)
  }

  /** The keys among `done` whose values in `b` take part in the merge. */
  function KeptKeys(b: JsonObject, done: set<string>): set<string> {
    set k | k in done && k in b && !Skipped(b[k])
  }

  /** `base` after the loop has visited the keys `done` of `b`. */
  function Overlay(base: JsonObject, b: JsonObject, done: set<string>): JsonObject {
    map k | k in base.Keys + KeptKeys(b, done) :: if k in KeptKeys(b, done) then b[k] else base[k]
  }

  /** `{ ...a }`: spreading `undefined` gives an empty object. */
  function Spread(a: Option<JsonObject>): JsonObject {
    if a.Some? then a.value else map[]
  }

  /** The object mergeOptions returns; a falsy `b` is `None`. */
  function Merged(a: Option<JsonObject>, b: Option<JsonObject>): JsonObject {
    if b.None? then Spread(a) else Overlay(Spread(a), b.value, b.value.Keys)
  }

  /** The loop of mergeOptions: copy `a`, then assign every non-skipped value of `b`. */
  method MergeOptions(a: Option<JsonObject>, b: Option<JsonObject>) returns (options: JsonObject)
    ensures options == Merged(a, b)
  {
    options := Spread(a);
    if b.Some? {
      var props := b.value.Keys;
      while props != {}
        invariant props <= b.value.Keys
        invariant options == Overlay(Spread(a), b.value, b.value.Keys - props)
        decreases props
      {
        var prop :| prop in props;
        ghost var done := b.value.Keys - props;
        props := props - {prop};
        var val := b.value[prop];
        if Skipped(val) {
          assert KeptKeys(b.value, done + {prop}) == KeptKeys(b.value, done);
          assert b.value.Keys - props == done + {prop};
          continue;
        }
        assert KeptKeys(b.value, done + {prop}) == KeptKeys(b.value, done) + {prop};
        options := options[prop := val];
      }
      assert b.value.Keys - props == b.value.Keys;
    }
  }

  /** What the merged object holds: every key of `a` and every non-skipped key of
      `b`, nothing else; `b`'s value wins where it is not skipped, `a`'s value
      survives everywhere else. */
  lemma MergedSpec(a: Option<JsonObject>, b: Option<JsonObject>)
    ensures Merged(a, b).Keys ==
      Spread(a).Keys + (if b.Some? then set k | k in b.value && !Skipped(b.value[k]) else {})
    ensures forall k :: b.Some? && k in b.value && !Skipped(b.value[k]) ==> Merged(a, b)[k] == b.value[k]
    ensures forall k :: k in Spread(a) && (b.None? || k !in b.value || Skipped(b.value[k])) ==>
      Merged(a, b)[k] == Spread(a)[k]
  {
  }

  /** A key whose value in `b` is undefined or an empty array changes nothing. */
  lemma SkippedValueChangesNothing(a: Option<JsonObject>, b: JsonObject, k: string)
    requires k in b && Skipped(b[k])
    ensures k in Merged(a, Some(b)) <==> k in Spread(a)
    ensures k in Spread(a) ==> Merged(a, Some(b))[k] == Spread(a)[k]
  {
  }

  /** Merging with a falsy `b` yields a copy of `a`. */
  lemma MergeWithFalsyIsCopy(a: JsonObject)
    ensures Merged(Some(a), None) == a
  {
  }

  /** Merging the same overrides a second time changes nothing. */
  lemma MergedIdempotent(a: Option<JsonObject>, b: Option<JsonObject>)
    ensures Merged(Some(Merged(a, b)), b) == Merged(a, b)
  {
  }
}
