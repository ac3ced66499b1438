/**
 The mapper table types: one entry per member of `S`, plus `handleNull`
 and `handleUndefined` entries as the variant demands, plus an optional
 `handleUnexpected` entry that the mapper factory reads.
 */
module StringMapper {
  import opened CaseSet

  /** The well-formed key sets of the four mapper types, written out. */
  lemma MapperShapes(S: set<string>, keys: set<string>)
    ensures WellFormed(Plain, S, keys)
        <==> S <= keys <= S + {HandleUnexpected}
    ensures WellFormed(WithNull, S, keys)
        <==> S + {HandleNull} <= keys <= S + {HandleNull, HandleUnexpected}
    ensures WellFormed(WithUndefined, S, keys)
        <==> S + {HandleUndefined} <= keys <= S + {HandleUndefined, HandleUnexpected}
    ensures WellFormed(WithNullAndUndefined, S, keys)
        <==> S + {HandleNull, HandleUndefined} <= keys <= S + {HandleNull, HandleUndefined, HandleUnexpected}
  {
  }

  /** A missing member entry, or a channel entry the variant does not
      declare, makes a mapper ill-formed (when no member is named like it). */
  lemma MapperRejectsMissingOrUnnecessary(v: Variant, S: set<string>, keys: set<string>)
    requires HandleNull !in S && HandleUndefined !in S
    ensures (exists s :: s in S && s !in keys) ==> !WellFormed(v, S, keys)
    ensures HandleNull in keys && !v.HasNull() ==> !WellFormed(v, S, keys)
    ensures HandleUndefined in keys && !v.HasUndefined() ==> !WellFormed(v, S, keys)
  {
  }

  /** The mapper of `mapString("r" as RGB | null | undefined)` with an extra
      `"o"` entry fails to compile; its only violation is the excess entry. */
  lemma ExtraEntrySample()
    ensures !WellFormed(WithNullAndUndefined, {"r", "g", "b"}, {"r", "g", "b", "o", HandleNull, HandleUndefined})
    ensures Violations(WithNullAndUndefined, {"r", "g", "b"}, {"r", "g", "b", "o", HandleNull, HandleUndefined})
         == {ExcessEntry("o")}
  {
  }
}
