/**
 The `with()` closures built by the four visitor function factories. The
 closure `with(visitor)` returns is the partial application `x => Visit(v, visitor, x)`.
 */
module StringVisitorFunctionFactory {
  import opened Js
  import opened CaseSet
  import opened Outcomes
  import StringVisitor

  /** The tail every closure shares: own key first, then `handleUnexpected`,
      then the `Unexpected value` error. Both ownership tests call the
      table's `hasOwnProperty`, so a table owning an entry of that name
      hands control to that entry. */
  function VisitOwnKey<E>(visitor: map<string, E>, x: Input): (o: Outcome)
    ensures !o.Value?
    ensures o.Call? || o.Probe? ==> o.arg == x
    ensures o.Probe? <==> !StandardOwnershipTest(visitor)
    ensures StandardOwnershipTest(visitor) && ToJsString(x) in visitor ==> o == Call(ToJsString(x), x)
    ensures StandardOwnershipTest(visitor) && ToJsString(x) !in visitor && HandleUnexpected in visitor
        ==> o == Call(HandleUnexpected, x)
    ensures o.Err? <==> StandardOwnershipTest(visitor) && ToJsString(x) !in visitor && HandleUnexpected !in visitor
    ensures o.Err? ==> o.message == UnexpectedValueMessage(x)
  {
    if !StandardOwnershipTest(visitor) then Probe(x)
    else if ToJsString(x) in visitor then Call(ToJsString(x), x)
    else if HandleUnexpected in visitor then Call(HandleUnexpected, x)
    else Err(UnexpectedValueMessage(x))
  }

  /** The closure of the factory for variant `v`. The channel entries are
      invoked without an ownership check, as in the source. */
  function Visit<E>(v: Variant, visitor: map<string, E>, x: Input): (o: Outcome)
    ensures !o.Value?
    ensures o.Call? || o.Probe? ==> o.arg == x
    ensures x.Null? && v.HasNull() ==> o == Call(HandleNull, x)
    ensures x.Undefined? && v.HasUndefined() ==> o == Call(HandleUndefined, x)
    ensures !OnChannel(v, x) ==> o == VisitOwnKey(visitor, x)
  {
    match v
    case Plain =>
      VisitOwnKey(visitor, x)
    case WithNull =>
      if x.Null? then Call(HandleNull, x) else VisitOwnKey(visitor, x)
    case WithUndefined =>
      if x.Undefined? then Call(HandleUndefined, x) else VisitOwnKey(visitor, x)
    case WithNullAndUndefined =>
      if x.Undefined? then Call(HandleUndefined, x)
      else if x.Null? then Call(HandleNull, x)
      else VisitOwnKey(visitor, x)
  }

  /** Exhaustiveness: a well-formed visitor and an input of the declared
      type never reach the error. Unless the input is a string and
      `hasOwnProperty` is itself a member of the discriminant type, the
      handler invoked is owned by the table and is declared to accept the
      argument it receives; in that one case the table's own
      `hasOwnProperty` entry decides. */
  lemma Exhaustive<E>(v: Variant, S: set<string>, visitor: map<string, E>, x: Input)
    requires WellFormed(v, S, visitor.Keys) && InDomain(v, S, x)
    ensures !Visit(v, visitor, x).Err?
    ensures Visit(v, visitor, x).Probe? <==> x.Str? && HasOwnPropertyName in S
    ensures !Visit(v, visitor, x).Probe? ==>
      Visit(v, visitor, x).Call? && Visit(v, visitor, x).key in visitor
      && StringVisitor.Accepts(v, S, Visit(v, visitor, x).key, x)
  {
  }

  /** A member of the discriminant selects its own handler, whatever else
      the well-formed table holds, unless `hasOwnProperty` is a member too. */
  lemma MemberSelectsOwnHandler<E>(v: Variant, S: set<string>, visitor: map<string, E>, s: string)
    requires WellFormed(v, S, visitor.Keys) && s in S
    ensures Visit(v, visitor, Str(s))
         == if HasOwnPropertyName in S then Probe(Str(s)) else Call(s, Str(s))
  {
  }

  /** `handleUnexpected` only ever receives a value of its declared
      parameter type: never a value the variant has a channel for. */
  lemma UnexpectedHandlerArgument<E>(v: Variant, visitor: map<string, E>, x: Input)
    requires Visit(v, visitor, x) == Call(HandleUnexpected, x)
    ensures StringVisitor.UnexpectedParam(v, x)
  {
  }

  /** Dispatch looks only at which keys the table owns, never at the entries. */
  lemma DependsOnlyOnKeys<E, F>(v: Variant, a: map<string, E>, b: map<string, F>, x: Input)
    requires a.Keys == b.Keys
    ensures Visit(v, a, x) == Visit(v, b, x)
  {
  }

  /** Adding a catch-all turns exactly the `Unexpected value` errors into
      calls of `handleUnexpected` and leaves every other outcome alone. */
  lemma CatchAllOnlyReplacesErrors<E>(v: Variant, visitor: map<string, E>, h: E, x: Input)
    requires HandleUnexpected !in visitor
    ensures Visit(v, visitor[HandleUnexpected := h], x)
         == if Visit(v, visitor, x).Err? then Call(HandleUnexpected, x) else Visit(v, visitor, x)
  {
  }

  /** Narrowing to a channel only changes the channel's own input: on every
      other input the narrowed closure behaves like the plain one. */
  lemma NarrowingKeepsOtherInputs<E>(v: Variant, visitor: map<string, E>, x: Input)
    requires !OnChannel(v, x)
    ensures Visit(v, visitor, x) == Visit(Plain, visitor, x)
  {
  }

  /** The plain closure on the colour table of the unit tests, with and
      without a catch-all: members select their handlers; `null`,
      `undefined`, an unknown string and a prototype property name are all
      unexpected. */
  lemma Scenarios(h: int)
    ensures Visit(Plain, map["r" := h, "g" := h, "b" := h], Str("r")) == Call("r", Str("r"))
    ensures Visit(Plain, map["r" := h, "g" := h, "b" := h, HandleUnexpected := h], Null)
         == Call(HandleUnexpected, Null)
    ensures Visit(Plain, map["r" := h, "g" := h, "b" := h, HandleUnexpected := h], Undefined)
         == Call(HandleUnexpected, Undefined)
    ensures Visit(Plain, map["r" := h, "g" := h, "b" := h, HandleUnexpected := h], Str("unexpected!"))
         == Call(HandleUnexpected, Str("unexpected!"))
    ensures Visit(Plain, map["r" := h, "g" := h, "b" := h, HandleUnexpected := h], Str("toString"))
         == Call(HandleUnexpected, Str("toString"))
    ensures Visit(Plain, map["r" := h, "g" := h, "b" := h], Null) == Err("Unexpected value: null")
    ensures Visit(Plain, map["r" := h, "g" := h, "b" := h], Undefined) == Err("Unexpected value: undefined")
    ensures Visit(Plain, map["r" := h, "g" := h, "b" := h], Str("unexpected!"))
         == Err("Unexpected value: unexpected!")
    ensures Visit(Plain, map["r" := h, "g" := h, "b" := h], Str("toString"))
         == Err("Unexpected value: toString")
  {
  }

  /** The plain closure has no channels: a `handleNull` or `handleUndefined`
      entry is never reached through `null` or `undefined`, which are looked
      up under `"null"` and `"undefined"` instead. */
  lemma PlainHasNoChannels(h: int)
    ensures Visit(Plain, map["r" := h, HandleNull := h], Null) == Err("Unexpected value: null")
    ensures Visit(Plain, map["r" := h, HandleUndefined := h], Undefined) == Err("Unexpected value: undefined")
    ensures Visit(Plain, map["r" := h, HandleNull := h, HandleUnexpected := h], Null) == Call(HandleUnexpected, Null)
  {
  }

  /** The `orNull()` closure: `null` goes to `handleNull`, `undefined` is
      looked up like any other value. */
  lemma NarrowedScenarios(h: int)
    ensures Visit(OrNull(), map["r" := h, "g" := h, "b" := h, HandleNull := h], Null) == Call(HandleNull, Null)
    ensures Visit(OrNull(), map["r" := h, "g" := h, "b" := h, HandleNull := h], Undefined)
         == Err("Unexpected value: undefined")
  {
  }

  /** A table owning a `hasOwnProperty` entry replaces the ownership test,
      for every string input, not only for `"hasOwnProperty"`. */
  lemma ShadowedOwnershipTest(h: int)
    ensures Visit(Plain, map[HasOwnPropertyName := h], Str(HasOwnPropertyName)) == Probe(Str(HasOwnPropertyName))
    ensures Visit(Plain, map["a" := h, HasOwnPropertyName := h], Str("a")) == Probe(Str("a"))
    ensures Visit(WithNull, map["a" := h, HasOwnPropertyName := h, HandleNull := h], Null) == Call(HandleNull, Null)
  {
  }

  /** Without a null channel, `null` is looked up under the key `"null"`:
      a table that owns that key invokes its handler with `null`. */
  lemma NullKeyLookup(h: int)
    ensures Visit(Plain, map["null" := h, HandleUnexpected := h], Null) == Call("null", Null)
  {
  }
}
