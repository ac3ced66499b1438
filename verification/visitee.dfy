/**
 The run-time visitee behind all four `visitString(value)` views. It wraps
 the value once; `with(visitor)` invokes the handler named after it.
 */
module StringVisitee {
  import opened Js
  import opened CaseSet
  import opened Outcomes
  import StringVisitorFunctionFactory

  /** The wrapped value is fixed at construction. */
  datatype Visitee = Visitee(value: Input)
  {
    /** `null` goes to `handleNull`, `undefined` to `handleUndefined`, and a
        string to the handler under that string. There is no own-key check
        and no catch-all, so a string must name an entry of the table. */
    function With<E>(visitor: map<string, E>): (o: Outcome)
      requires value.Str? ==> value.s in visitor
      ensures o.Call? && o.arg == value
      ensures value.Null? ==> o.key == HandleNull
      ensures value.Undefined? ==> o.key == HandleUndefined
      ensures value.Str? ==> o.key == value.s && o.key in visitor
    {
      match value
      case Null => Call(HandleNull, value)
      case Undefined => Call(HandleUndefined, value)
      case Str(s) => Call(s, value)
    }
  }

  /** Whenever the visitee is defined, it agrees with the null-and-undefined
      factory closure, although that checks `undefined` before `null`,
      except where a string input meets a table whose own `hasOwnProperty`
      entry takes over the factory's ownership test. */
  lemma AgreesWithFullFactory<E>(x: Input, visitor: map<string, E>)
    requires x.Str? ==> x.s in visitor
    ensures StringVisitorFunctionFactory.Visit(WithNullAndUndefined, visitor, x)
         == if x.Str? && !StandardOwnershipTest(visitor) then Probe(x) else Visitee(x).With(visitor)
  {
  }

  /** Each compile-time view agrees with the factory closure of its variant
      on well-formed tables and inputs of the declared type, unless the
      input is a string and `hasOwnProperty` is a member of the type. */
  lemma AgreesWithFactory<E>(v: Variant, S: set<string>, visitor: map<string, E>, x: Input)
    requires WellFormed(v, S, visitor.Keys) && InDomain(v, S, x)
    ensures x.Str? ==> x.s in visitor
    ensures StringVisitorFunctionFactory.Visit(v, visitor, x)
         == if x.Str? && HasOwnPropertyName in S then Probe(x) else Visitee(x).With(visitor)
  {
  }
}
