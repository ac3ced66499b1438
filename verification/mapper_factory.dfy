/**
 The `with()` closures built by the four mapper function factories: the
 same selection as the visitor closures, but the selected entry is handed
 back as it is instead of being invoked.
 */
module StringMapperFunctionFactory {
  import opened Js
  import opened CaseSet
  import opened Outcomes
  import StringVisitorFunctionFactory

  /** Own key first, then the `handleUnexpected` entry, then the error. A
      table owning an entry named `hasOwnProperty` hands the ownership test
      to that entry. */
  function MapOwnKey<E>(mapper: map<string, E>, x: Input): (o: Outcome)
    ensures !o.Call?
    ensures o.Probe? <==> !StandardOwnershipTest(mapper)
    ensures o.Probe? ==> o.arg == x
    ensures StandardOwnershipTest(mapper) && ToJsString(x) in mapper ==> o == Value(ToJsString(x))
    ensures StandardOwnershipTest(mapper) && ToJsString(x) !in mapper && HandleUnexpected in mapper
        ==> o == Value(HandleUnexpected)
    ensures o.Err? <==> StandardOwnershipTest(mapper) && ToJsString(x) !in mapper && HandleUnexpected !in mapper
    ensures o.Err? ==> o.message == UnexpectedValueMessage(x)
  {
    if !StandardOwnershipTest(mapper) then Probe(x)
    else if ToJsString(x) in mapper then Value(ToJsString(x))
    else if HandleUnexpected in mapper then Value(HandleUnexpected)
    else Err(UnexpectedValueMessage(x))
  }

  /** The closure of the mapper factory for variant `v`. */
  function MapValue<E>(v: Variant, mapper: map<string, E>, x: Input): (o: Outcome)
    ensures !o.Call?
    ensures o.Probe? ==> o.arg == x
    ensures x.Null? && v.HasNull() ==> o == Value(HandleNull)
    ensures x.Undefined? && v.HasUndefined() ==> o == Value(HandleUndefined)
    ensures !OnChannel(v, x) ==> o == MapOwnKey(mapper, x)
  {
    match v
    case Plain =>
      MapOwnKey(mapper, x)
    case WithNull =>
      if x.Null? then Value(HandleNull) else MapOwnKey(mapper, x)
    case WithUndefined =>
      if x.Undefined? then Value(HandleUndefined) else MapOwnKey(mapper, x)
    case WithNullAndUndefined =>
      if x.Undefined? then Value(HandleUndefined)
      else if x.Null? then Value(HandleNull)
      else MapOwnKey(mapper, x)
  }

  /** For tables with the same keys, the mapper returns the entry whose key
      the visitor would invoke, fails exactly when it fails, with the same
      message, and reaches a shadowing `hasOwnProperty` entry exactly when
      the visitor does, with the same argument. */
  lemma MapperSelectsVisitorKey<E, H>(v: Variant, mapper: map<string, E>, visitor: map<string, H>, x: Input)
    requires mapper.Keys == visitor.Keys
    ensures MapValue(v, mapper, x).Value? <==> StringVisitorFunctionFactory.Visit(v, visitor, x).Call?
    ensures MapValue(v, mapper, x).Value?
        ==> MapValue(v, mapper, x).key == StringVisitorFunctionFactory.Visit(v, visitor, x).key
    ensures MapValue(v, mapper, x).Err? ==> MapValue(v, mapper, x) == StringVisitorFunctionFactory.Visit(v, visitor, x)
    ensures MapValue(v, mapper, x).Probe? <==> StringVisitorFunctionFactory.Visit(v, visitor, x).Probe?
    ensures MapValue(v, mapper, x).Probe? ==> MapValue(v, mapper, x) == StringVisitorFunctionFactory.Visit(v, visitor, x)
  {
  }

  /** Exhaustiveness: a well-formed mapper and an input of the declared type
      never reach the error. Unless the input is a string and
      `hasOwnProperty` is itself a member of the discriminant type, the
      result is an owned entry: the member's own entry for a member, the
      channel entry for `null` or `undefined`. */
  lemma MapperExhaustive<E>(v: Variant, S: set<string>, mapper: map<string, E>, x: Input)
    requires WellFormed(v, S, mapper.Keys) && InDomain(v, S, x)
    ensures !MapValue(v, mapper, x).Err?
    ensures MapValue(v, mapper, x).Probe? <==> x.Str? && HasOwnPropertyName in S
    ensures !MapValue(v, mapper, x).Probe? ==> MapValue(v, mapper, x).Value? && MapValue(v, mapper, x).key in mapper
    ensures !MapValue(v, mapper, x).Probe? && x.Str? ==> MapValue(v, mapper, x).key == x.s
    ensures x.Null? ==> MapValue(v, mapper, x) == Value(HandleNull)
    ensures x.Undefined? ==> MapValue(v, mapper, x) == Value(HandleUndefined)
  {
  }

  /** The plain closure on the colour table of the unit tests, with and
      without a catch-all entry. */
  lemma MapperScenarios(e: int)
    ensures MapValue(Plain, map["r" := e, "g" := e, "b" := e], Str("g")) == Value("g")
    ensures MapValue(Plain, map["r" := e, "g" := e, "b" := e, HandleUnexpected := e], Null) == Value(HandleUnexpected)
    ensures MapValue(Plain, map["r" := e, "g" := e, "b" := e, HandleUnexpected := e], Undefined)
         == Value(HandleUnexpected)
    ensures MapValue(Plain, map["r" := e, "g" := e, "b" := e, HandleUnexpected := e], Str("unexpected!"))
         == Value(HandleUnexpected)
    ensures MapValue(Plain, map["r" := e, "g" := e, "b" := e, HandleUnexpected := e], Str("toString"))
         == Value(HandleUnexpected)
    ensures MapValue(Plain, map["r" := e, "g" := e, "b" := e], Null) == Err("Unexpected value: null")
    ensures MapValue(Plain, map["r" := e, "g" := e, "b" := e], Undefined) == Err("Unexpected value: undefined")
    ensures MapValue(Plain, map["r" := e, "g" := e, "b" := e], Str("unexpected!"))
         == Err("Unexpected value: unexpected!")
    ensures MapValue(Plain, map["r" := e, "g" := e, "b" := e], Str("toString"))
         == Err("Unexpected value: toString")
  {
  }

  /** The plain mapper closure has no channels: `null` and `undefined` are
      looked up under `"null"` and `"undefined"`. */
  lemma MapperPlainHasNoChannels(e: int)
    ensures MapValue(Plain, map["r" := e, HandleNull := e], Null) == Err("Unexpected value: null")
    ensures MapValue(Plain, map["r" := e, HandleUndefined := e], Undefined) == Err("Unexpected value: undefined")
    ensures MapValue(Plain, map["undefined" := e, HandleUndefined := e], Undefined) == Value("undefined")
  {
  }

  /** The `orUndefined()` closure: `undefined` yields the `handleUndefined`
      entry, `null` is looked up under the key `"null"`. */
  lemma MapperNarrowedScenarios(e: int)
    ensures MapValue(OrUndefined(), map["r" := e, HandleUndefined := e], Undefined) == Value(HandleUndefined)
    ensures MapValue(OrUndefined(), map["r" := e, HandleUndefined := e], Null) == Err("Unexpected value: null")
  {
  }
}
