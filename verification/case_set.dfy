/**
 The shape every dispatch table must have, shared by visitors and mappers.
 A table is described by its set of own keys; the discriminant type is the
 closed set `S` of its string members together with a nullability variant.
 */
module CaseSet {
  import opened Js

  /** Reserved entry names; they live in the same key space as the members of `S`. */
  const HandleNull: string := "handleNull"
  const HandleUndefined: string := "handleUndefined"
  const HandleUnexpected: string := "handleUnexpected"

  /** The four nullability flavours of the discriminant type:
      `S`, `S | null`, `S | undefined` and `S | null | undefined`. */
  datatype Variant = Plain | WithNull | WithUndefined | WithNullAndUndefined
  {
    /** The variant has a dedicated `handleNull` channel. */
    predicate HasNull() {
      this == WithNull || this == WithNullAndUndefined
    }

    /** The variant has a dedicated `handleUndefined` channel. */
    predicate HasUndefined() {
      this == WithUndefined || this == WithNullAndUndefined
    }
  }

  /** `x` is routed to a channel entry rather than looked up by key. */
  predicate OnChannel(v: Variant, x: Input) {
    (x.Null? && v.HasNull()) || (x.Undefined? && v.HasUndefined())
  }

  /** The values the declared discriminant type admits. */
  predicate InDomain(v: Variant, S: set<string>, x: Input) {
    match x
    case Str(s) => s in S
    case Null => v.HasNull()
    case Undefined => v.HasUndefined()
  }

  /** The channel entries a table of this variant must own. */
  function ChannelKeys(v: Variant): set<string> {
    (if v.HasNull() then {HandleNull} else {}) + (if v.HasUndefined() then {HandleUndefined} else {})
  }

  /** One entry per member of `S`, plus the channel entries. */
  function RequiredKeys(v: Variant, S: set<string>): set<string> {
    S + ChannelKeys(v)
  }

  /** The required entries plus the optional catch-all. */
  function AllowedKeys(v: Variant, S: set<string>): set<string> {
    RequiredKeys(v, S) + {HandleUnexpected}
  }

  /** The compile-time contract on a table's own keys: nothing required is
      missing and nothing outside the allowed names is present. */
  predicate WellFormed(v: Variant, S: set<string>, keys: set<string>) {
    RequiredKeys(v, S) <= keys <= AllowedKeys(v, S)
  }

  /** One violation of the key-set contract: a required entry the table
      lacks, or an entry outside the allowed names. */
  datatype Violation = MissingEntry(key: string) | ExcessEntry(key: string)

  /** Every violation of the key-set contract by a table. */
  function Violations(v: Variant, S: set<string>, keys: set<string>): (ds: set<Violation>)
    ensures forall k :: MissingEntry(k) in ds <==> k in RequiredKeys(v, S) && k !in keys
    ensures forall k :: ExcessEntry(k) in ds <==> k in keys && k !in AllowedKeys(v, S)
  {
    (set k | k in RequiredKeys(v, S) && k !in keys :: MissingEntry(k))
      + (set k | k in keys && k !in AllowedKeys(v, S) :: ExcessEntry(k))
  }

  /** A table has no key-set violation exactly when it is well-formed.
      Compiling a visitor also asks each handler's declared parameter to
      cover its slot (`StringVisitor.Compiles`). */
  lemma NoViolationsIffWellFormed(v: Variant, S: set<string>, keys: set<string>)
    ensures Violations(v, S, keys) == {} <==> WellFormed(v, S, keys)
  {
  }

  /** `orNull()`: the narrowed factory has exactly the null channel. */
  function OrNull(): (v: Variant)
    ensures v.HasNull() && !v.HasUndefined()
  {
    WithNull
  }

  /** `orUndefined()`: the narrowed factory has exactly the undefined channel. */
  function OrUndefined(): (v: Variant)
    ensures !v.HasNull() && v.HasUndefined()
  {
    WithUndefined
  }

  /** `orNullorUndefined()`: the narrowed factory has both channels. */
  function OrNullOrUndefined(): (v: Variant)
    ensures v.HasNull() && v.HasUndefined()
  {
    WithNullAndUndefined
  }
}
