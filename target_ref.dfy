/**
  References to other targets (src/builders/utils/target-ref.ts). A builder
  option may name a target by a plain string or by an object
  `{ target?, options? }`; `getTargetRef` turns either form into the object form.
 */
module TargetRefs {
  import opened Js

  /** `Partial<TargetRef<O>>`: an object whose `target` and `options` may be absent. */
  datatype TargetRef<O> = TargetRef(target: Option<string>, options: Option<O>)

  /** `string | Partial<TargetRef<O>>`, the shape a target option is written in. */
  datatype TargetSpec<O> = Name(name: string) | Ref(ref: TargetRef<O>)

  /** JavaScript truthiness of a target option: only the empty string is falsy. */
  predicate TruthyTarget<O>(t: TargetSpec<O>) {
    t.Ref? || t.name != ""
  }

  /** `getTargetRef`: a string `s` becomes `{ target: s }`; an object is returned as it is. */
  function GetTargetRef<O>(t: TargetSpec<O>): (r: TargetRef<O>)
    ensures t.Name? ==> r == TargetRef(Some(t.name), None)
    ensures t.Ref? ==> r == t.ref
  {
    match t
    case Name(s) => TargetRef(Some(s), None)
    case Ref(ref) => ref
  }

  /** Applying getTargetRef to its own result changes nothing. */
  lemma GetTargetRefIdempotent<O>(t: TargetSpec<O>)
    ensures GetTargetRef(Ref(GetTargetRef(t))) == GetTargetRef(t)
  {
  }

  /** A string reference always yields a defined target name and never options. */
  lemma GetTargetRefOfNameHasTarget<O>(s: string)
    ensures GetTargetRef<O>(Name(s)).target == Some(s)
    ensures GetTargetRef<O>(Name(s)).options.None?
  {
  }
}
