/** The part of JavaScript's value semantics the filter relies on: values
    that are a string, `null` or `undefined`, and the loose equality `==`
    between them (section 7.2.15, Abstract Equality Comparison, of ECMAScript
    2020; IsLooselyEqual in later editions). */
module Js {
  import opened Wrappers

  /** A JavaScript value whose type is String, Null or Undefined. */
  datatype NullableString = Undefined | Null | Str(s: string)
  {
    /** `null` or `undefined`. */
    predicate IsNullish() { Undefined? || Null? }
  }

  /** The value a nullable string field holds: the field is written with
      either a string literal or `null`. */
  function FromField(field: Option<string>): (v: NullableString)
    ensures v != Undefined
    ensures v.Null? <==> field.None?
    ensures field.Some? ==> v == Str(field.value)
  {
    match field
    case None => Null
    case Some(s) => Str(s)
  }

  /** Type(x) is Type(y). */
  predicate SameType(x: NullableString, y: NullableString)
  {
    (x.Undefined? && y.Undefined?) || (x.Null? && y.Null?) || (x.Str? && y.Str?)
  }

  /** `x == y`, following the steps of the Abstract Equality Comparison:
      step 1 defers to strict equality when the types agree (undefined and null
      are each equal to themselves, strings compare code unit by code unit);
      steps 2 and 3 make `null` and `undefined` equal to each other; the
      remaining steps convert numbers, booleans and objects, none of which
      arise here, so every other pair is unequal. */
  function LooseEquals(x: NullableString, y: NullableString): (r: bool)
    ensures r <==> (x.IsNullish() && y.IsNullish()) || (x.Str? && y.Str? && x.s == y.s)
    ensures x.Str? && y.IsNullish() ==> !r
  {
    if SameType(x, y) then
      match x
      case Str(a) => a == y.s
      case _ => true
    else if x.Null? && y.Undefined? then true
    else if x.Undefined? && y.Null? then true
    else false
  }

  /** On these values `==` is an equivalence relation (it is not one on all
      JavaScript values), so filtering by it partitions a collection. */
  lemma LooseEqualsIsEquivalence(x: NullableString, y: NullableString, z: NullableString)
    ensures LooseEquals(x, x)
    ensures LooseEquals(x, y) ==> LooseEquals(y, x)
    ensures LooseEquals(x, y) && LooseEquals(y, z) ==> LooseEquals(x, z)
  {
  }
}
