/**
 The run-time mappee behind all four `mapString(value)` views: `with(mapper)`
 hands back the entry named after the wrapped value.
 */
module StringMappee {
  import opened Js
  import opened CaseSet
  import opened Outcomes
  import StringMapperFunctionFactory

  /** The wrapped value is fixed at construction. */
  datatype Mappee = Mappee(value: Input)
  {
    /** `null` yields the `handleNull` entry, `undefined` the
        `handleUndefined` entry, and a string the entry under that string. */
    function With<E>(mapper: map<string, E>): (o: Outcome)
      requires value.Str? ==> value.s in mapper
      ensures o.Value?
      ensures value.Null? ==> o.key == HandleNull
      ensures value.Undefined? ==> o.key == HandleUndefined
      ensures value.Str? ==> o.key == value.s && o.key in mapper
    {
      match value
      case Null => Value(HandleNull)
      case Undefined => Value(HandleUndefined)
      case Str(s) => Value(s)
    }
  }

  /** Whenever the mappee is defined, it agrees with the null-and-undefined
      mapper factory closure, except where a string input meets a table
      whose own `hasOwnProperty` entry takes over the factory's ownership test. */
  lemma AgreesWithFullMapperFactory<E>(x: Input, mapper: map<string, E>)
    requires x.Str? ==> x.s in mapper
    ensures StringMapperFunctionFactory.MapValue(WithNullAndUndefined, mapper, x)
         == if x.Str? && !StandardOwnershipTest(mapper) then Probe(x) else Mappee(x).With(mapper)
  {
  }

  /** Each compile-time view agrees with the mapper factory closure of its
      variant on well-formed tables and inputs of the declared type, unless
      the input is a string and `hasOwnProperty` is a member of the type. */
  lemma AgreesWithMapperFactory<E>(v: Variant, S: set<string>, mapper: map<string, E>, x: Input)
    requires WellFormed(v, S, mapper.Keys) && InDomain(v, S, x)
    ensures x.Str? ==> x.s in mapper
    ensures StringMapperFunctionFactory.MapValue(v, mapper, x)
         == if x.Str? && HasOwnPropertyName in S then Probe(x) else Mappee(x).With(mapper)
  {
  }
}
