/**
 The visitor table types: one handler per member of `S`, the channel handlers
 the variant demands, and an optional `handleUnexpected`, each handler typed
 by the values it may receive.
 */
module StringVisitor {
  import opened Js
  import opened CaseSet

  /** The declared parameter type of `handleUnexpected`: everything the
      variant has no dedicated channel for. */
  predicate UnexpectedParam(v: Variant, x: Input) {
    match v
    case Plain => true
    case WithNull => x.Str? || x.Undefined?
    case WithUndefined => x.Str? || x.Null?
    case WithNullAndUndefined => x.Str?
  }

  /** The handler stored under `key` is declared to accept `x`: a member's
      handler takes exactly that literal, `handleNull` takes `null`,
      `handleUndefined` takes `undefined`. */
  predicate Accepts(v: Variant, S: set<string>, key: string, x: Input) {
    || (key in S && x == Str(key))
    || (key == HandleNull && v.HasNull() && x == Null)
    || (key == HandleUndefined && v.HasUndefined() && x == Undefined)
    || (key == HandleUnexpected && UnexpectedParam(v, x))
  }

  /** The parameter type a handler in a table literal declares, by the
      kinds of input it admits: the strings the entry is called with, `null`
      and `undefined`. */
  datatype ParamType = ParamType(strings: bool, nulls: bool, undefineds: bool)
  {
    predicate Admits(x: Input) {
      match x
      case Str(_) => strings
      case Null => nulls
      case Undefined => undefineds
    }

    /** Parameter types are contravariant: a handler may declare a wider
        parameter than the table type asks for, never a narrower one. */
    predicate Covers(demand: ParamType) {
      (demand.strings ==> strings) && (demand.nulls ==> nulls) && (demand.undefineds ==> undefineds)
    }
  }

  /** A handler written without a parameter, `() => ...`, fits every slot. */
  const NoParam: ParamType := ParamType(true, true, true)

  /** A handler declared `(value: RGB)` or `(value: string)`. */
  const StringParam: ParamType := ParamType(true, false, false)

  /** The parameter type the table type declares for entry `k`: the union
      of what every clause naming `k` asks for, because an entry named by
      several intersected clauses must satisfy all of them. */
  function Demand(v: Variant, S: set<string>, k: string): (d: ParamType)
    ensures d.strings <==> Accepts(v, S, k, Str(k))
    ensures d.nulls <==> Accepts(v, S, k, Null)
    ensures d.undefineds <==> Accepts(v, S, k, Undefined)
  {
    ParamType(
      k in S || k == HandleUnexpected,
      (k == HandleNull && v.HasNull()) || (k == HandleUnexpected && UnexpectedParam(v, Null)),
      (k == HandleUndefined && v.HasUndefined()) || (k == HandleUnexpected && UnexpectedParam(v, Undefined)))
  }

  /** A visitor literal type-checks: its key set has no violation and every
      handler's declared parameter covers what its slot asks for. */
  predicate Compiles(v: Variant, S: set<string>, table: map<string, ParamType>) {
    && Violations(v, S, table.Keys) == {}
    && forall k | k in table :: table[k].Covers(Demand(v, S, k))
  }

  /** A visitor literal compiles exactly when it is well-formed and every
      handler admits every value its entry is declared to receive. */
  lemma CompilesIff(v: Variant, S: set<string>, table: map<string, ParamType>)
    ensures Compiles(v, S, table)
        <==> (WellFormed(v, S, table.Keys)
              && forall k, x | k in table && Accepts(v, S, k, x) :: table[k].Admits(x))
  {
  }

  /** `handleUnexpected` is declared for exactly the inputs that have no channel. */
  lemma UnexpectedParamExcludesChannels(v: Variant, x: Input)
    ensures UnexpectedParam(v, x) <==> !OnChannel(v, x)
  {
  }

  /** A well-formed visitor has a handler for every member of `S`. */
  lemma HandlerPerMember(v: Variant, S: set<string>, keys: set<string>, s: string)
    requires WellFormed(v, S, keys) && s in S
    ensures s in keys
  {
  }

  /** Unless a member of `S` is itself called `handleNull`, a well-formed
      visitor owns `handleNull` exactly in the variants with a null channel. */
  lemma NullHandlerRequiredIff(v: Variant, S: set<string>, keys: set<string>)
    requires HandleNull !in S && WellFormed(v, S, keys)
    ensures HandleNull in keys <==> v.HasNull()
  {
  }

  /** Unless a member of `S` is itself called `handleUndefined`, a well-formed
      visitor owns `handleUndefined` exactly in the variants with an undefined channel. */
  lemma UndefinedHandlerRequiredIff(v: Variant, S: set<string>, keys: set<string>)
    requires HandleUndefined !in S && WellFormed(v, S, keys)
    ensures HandleUndefined in keys <==> v.HasUndefined()
  {
  }

  /** `handleUnexpected` is optional in every variant: adding or removing it
      does not change whether a table is well-formed. */
  lemma UnexpectedHandlerOptional(v: Variant, S: set<string>, keys: set<string>)
    requires HandleUnexpected !in S
    ensures WellFormed(v, S, keys - {HandleUnexpected}) <==> WellFormed(v, S, keys + {HandleUnexpected})
  {
  }

  /** A key that is neither a member, a channel of the variant nor
      `handleUnexpected` makes the table ill-formed. */
  lemma ExcessHandlerIllFormed(v: Variant, S: set<string>, keys: set<string>, k: string)
    requires k in keys && k !in S && k != HandleUnexpected
    requires !(k == HandleNull && v.HasNull()) && !(k == HandleUndefined && v.HasUndefined())
    ensures !WellFormed(v, S, keys)
  {
  }

  /** The table of `visitString("r" as RGB)` with an extra `"o"` handler
      fails to compile; its only violation is the excess entry. */
  lemma ExtraHandlerSample()
    ensures !WellFormed(Plain, {"r", "g", "b"}, {"r", "g", "b", "o"})
    ensures Violations(Plain, {"r", "g", "b"}, {"r", "g", "b", "o"}) == {ExcessEntry("o")}
  {
  }

  /** The table of `visitString("r" as RGB)` without a `"b"` handler fails
      to compile; its only violation is the missing member. */
  lemma MissingHandlerSample()
    ensures !WellFormed(Plain, {"r", "g", "b"}, {"r", "g"})
    ensures Violations(Plain, {"r", "g", "b"}, {"r", "g"}) == {MissingEntry("b")}
  {
  }

  /** The table of `visitString("r" as RGB | null)` with the three member
      handlers only fails to compile; its only violation is the missing
      null channel. */
  lemma MissingNullHandlerSample()
    ensures !WellFormed(WithNull, {"r", "g", "b"}, {"r", "g", "b"})
    ensures Violations(WithNull, {"r", "g", "b"}, {"r", "g", "b"}) == {MissingEntry(HandleNull)}
  {
  }

  /** With `handleNull` added, the same table compiles: it has no violation,
      and handlers without a parameter fit every slot. */
  lemma NullHandlerSample()
    ensures Compiles(WithNull, {"r", "g", "b"},
      map["r" := NoParam, "g" := NoParam, "b" := NoParam, HandleNull := NoParam])
    ensures WellFormed(WithNull, {"r", "g", "b"}, {"r", "g", "b", HandleNull})
    ensures Violations(WithNull, {"r", "g", "b"}, {"r", "g", "b", HandleNull}) == {}
  {
  }

  /** An `RGB or null` visitor whose `handleUnexpected` declares
      `(value: string)` has a well-formed key set, yet fails to compile:
      that handler must also admit `undefined`. */
  lemma IncorrectUnexpectedHandlerSample()
    ensures WellFormed(WithNull, {"r", "g", "b"}, {"r", "g", "b", HandleNull, HandleUnexpected})
    ensures !Compiles(WithNull, {"r", "g", "b"},
      map["r" := StringParam, "g" := StringParam, "b" := StringParam,
          HandleNull := ParamType(false, true, false), HandleUnexpected := StringParam])
  {
    assert !StringParam.Covers(Demand(WithNull, {"r", "g", "b"}, HandleUnexpected));
  }

  /** An `RGB` visitor whose `handleUnexpected` declares
      `(value: string | undefined)` fails to compile: it must admit `null`. */
  lemma IncorrectUnexpectedHandlerNullSample()
    ensures !Compiles(Plain, {"r", "g", "b"},
      map["r" := StringParam, "g" := StringParam, "b" := StringParam,
          HandleUnexpected := ParamType(true, false, true)])
  {
    assert !ParamType(true, false, true).Covers(Demand(Plain, {"r", "g", "b"}, HandleUnexpected));
  }

  /** An `RGB` visitor whose `handleUnexpected` declares
      `(value: string | null)` fails to compile: it must admit `undefined`. */
  lemma IncorrectUnexpectedHandlerUndefinedSample()
    ensures !Compiles(Plain, {"r", "g", "b"},
      map["r" := StringParam, "g" := StringParam, "b" := StringParam,
          HandleUnexpected := ParamType(true, true, false)])
  {
    assert !ParamType(true, true, false).Covers(Demand(Plain, {"r", "g", "b"}, HandleUnexpected));
  }

  /** An `RGB or null or undefined` visitor whose handlers declare exactly
      their slots' types, `handleUnexpected` taking `(value: string)`, compiles. */
  lemma ExplicitParamTypesSample()
    ensures Compiles(WithNullAndUndefined, {"r", "g", "b"},
      map["r" := StringParam, "g" := StringParam, "b" := StringParam,
          HandleNull := ParamType(false, true, false), HandleUndefined := ParamType(false, false, true),
          HandleUnexpected := StringParam])
  {
  }
}
