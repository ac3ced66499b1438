# ts-string-visitor: a Dafny model of string dispatch

This project models the run-time core of ts-string-visitor. The library
dispatches on a string discriminant that may also be `null` or `undefined`.
The caller supplies a table: one entry per member of the string-literal or
enum type `S`, channel entries `handleNull` and `handleUndefined` where the
type admits those values, and an optional catch-all `handleUnexpected`.

- The **visitor** style invokes the selected handler with the value.
- The **mapper** style returns the selected entry as it is.
- Each style comes as a reusable function factory with four nullability
  variants (`with`, `orNull().with`, `orUndefined().with`,
  `orNullorUndefined().with`) and as a wrapping "visitee"/"mappee" object.

Representation:

- An input is `Str(s) | Null | Undefined` (`Js.Input`).
- `ToJsString` is JavaScript's `String(x)`. The code uses it twice: as the
  property key for `hasOwnProperty(value)` and as the text of
  `${value}` in error messages. So `null` is looked up under the key
  `"null"` and printed as `null`.
- A table is a `map<string, E>`. Its keys are its own properties, and the
  reserved names are ordinary keys. An entry missing from the map is not
  owned, even if `Object.prototype` has a property of that name.
- One dispatch yields an `Outcome`:
  - `Call(key, arg)`: the handler under `key` is invoked once with `arg` and
    its result is returned.
  - `Value(key)`: the entry under `key` is returned without being invoked.
  - `Err(message)`: an `Error` is thrown and no handler runs.
  - `Probe(arg)`: the table owns an entry named `hasOwnProperty`. The
    factories test ownership with `table.hasOwnProperty(value)`, so that
    entry is applied to `arg` (a `TypeError` if it is not a function). What
    happens next depends on what it returns, and the model stops there.
- The four variants are `CaseSet.Variant`. The closure returned by
  `with(table)` is the partial application `x => Visit(v, table, x)`
  (respectively `MapValue`). The `orNull`/`orUndefined`/`orNullorUndefined`
  narrowing of src/StringMapperFunctionFactory.ts:24-44 is the same as the
  visitor factory's and is modelled once, by `CaseSet.OrNull` and its
  siblings.
- The compile-time contract of the table types becomes `CaseSet.WellFormed`,
  a predicate on the key set. Every violation of the key-set contract (a
  missing required entry or an excess entry) is listed by
  `CaseSet.Violations`; a table has none exactly when it is well-formed.
  The values each handler is declared to receive become
  `StringVisitor.Accepts`, and the parameter a handler in a literal declares
  becomes a `StringVisitor.ParamType`. A visitor literal compiles
  (`StringVisitor.Compiles`) when its key set has no violation and every
  handler's parameter covers its slot.
- `UnhandledEntry` is modelled on its own. Object identity is an id taken
  from a `Registry` counter; id 0 is the singleton.

The model follows the code as written:

- The channel handlers are invoked as `visitor.handleNull(value)`, with no
  ownership check and no fallback to `handleUnexpected`.
- None of the dispatchers consults `UnhandledEntry`. No "Unhandled value"
  step exists in dispatch.
- src/StringMapper.ts declares no `handleUnexpected`. The mapper factory
  reads it anyway (src/StringMapperFunctionFactory.ts:55), so the mapper
  shape admits it as optional.
- In a variant without a null channel, a `null` input is looked up under the
  key `"null"`. If a member of `S` is literally `"null"`, its handler
  receives `null` (`StringVisitorFunctionFactory.NullKeyLookup`).

## Model

| member | source | states |
|---|---|---|
| Js.ToJsStringCollisions | src/StringVisitorFunctionFactory.ts:60 | two distinct inputs render the same only for `null` vs `"null"` and `undefined` vs `"undefined"` |
| CaseSet.Violations | src/StringVisitor.ts:20-22 | a missing-entry violation exists for exactly the required keys the table lacks; an excess-entry violation for exactly the keys outside the allowed names |
| CaseSet.NoViolationsIffWellFormed | src/StringVisitor.ts:20-22 | a table has no key-set violation if and only if its key set is well-formed, in every variant |
| CaseSet.OrNull | src/StringVisitorFunctionFactory.ts:26-28 | `orNull()` selects the factory with exactly the null channel |
| CaseSet.OrUndefined | src/StringVisitorFunctionFactory.ts:34-36 | `orUndefined()` selects the factory with exactly the undefined channel |
| CaseSet.OrNullOrUndefined | src/StringVisitorFunctionFactory.ts:42-46 | `orNullorUndefined()` selects the factory with both channels |
| StringVisitor.UnexpectedParamExcludesChannels | src/StringVisitor.ts:50-52 | `handleUnexpected`'s declared parameter type (any string, null or undefined in the plain variant; only a string when both channels exist) is exactly the inputs the variant has no channel for |
| StringVisitor.HandlerPerMember | src/StringVisitor.ts:20-22 | a well-formed visitor owns a handler for every member of `S` |
| StringVisitor.NullHandlerRequiredIff | src/StringVisitor.ts:61-67 | a well-formed visitor owns `handleNull` if and only if the variant has a null channel (no member named `handleNull`) |
| StringVisitor.UndefinedHandlerRequiredIff | src/StringVisitor.ts:76-82 | a well-formed visitor owns `handleUndefined` if and only if the variant has an undefined channel (no member named `handleUndefined`) |
| StringVisitor.UnexpectedHandlerOptional | src/StringVisitor.ts:96-98 | adding or removing `handleUnexpected` never changes well-formedness, in every variant (no member named `handleUnexpected`) |
| StringVisitor.ExcessHandlerIllFormed | src/StringVisitor.ts:91-98 | a key outside the members, the variant's channels and `handleUnexpected` makes the table ill-formed |
| StringVisitor.Demand | src/StringVisitor.ts:20-98 | the parameter type declared for an entry admits `null`, `undefined` or the entry's own name exactly when the handler under that key is declared to receive that value |
| StringVisitor.CompilesIff | tests/util/testCompilation.ts:70-79 | a visitor literal compiles if and only if its key set is well-formed and every handler admits every value its entry is declared to receive |
| StringVisitor.IncorrectUnexpectedHandlerSample | tests/compile_samples/visitString/fail/literal-null.incorrect-unexpected-handler.ts:5-22 | an `RGB or null` visitor with a well-formed key set still fails to compile, because its `handleUnexpected` does not admit `undefined` |
| StringVisitor.IncorrectUnexpectedHandlerNullSample | tests/compile_samples/visitString/fail/literal.incorrect-unexpected-handler.null.ts:5-19 | an `RGB` visitor whose `handleUnexpected` does not admit `null` fails to compile |
| StringVisitor.IncorrectUnexpectedHandlerUndefinedSample | tests/compile_samples/visitString/fail/literal.incorrect-unexpected-handler.undefined.ts:5-19 | an `RGB` visitor whose `handleUnexpected` does not admit `undefined` fails to compile |
| StringVisitor.ExplicitParamTypesSample | tests/compile_samples/visitString/pass/literal-both.explicit-param-type.unexpected.ts:5-24 | an `RGB or null or undefined` visitor whose handlers declare exactly their slots' types, `handleUnexpected` taking a string, compiles |
| StringVisitor.ExtraHandlerSample | tests/compile_samples/fail/literal.extra-handler.ts:5-19 | an `RGB` visitor with an extra `"o"` handler fails to compile; its only violation is the excess `"o"` |
| StringVisitor.MissingHandlerSample | tests/compile_samples/fail/literal.missing-handler.ts:5-13 | an `RGB` visitor without a `"b"` handler fails to compile; its only violation is the missing `"b"` |
| StringVisitor.MissingNullHandlerSample | tests/compile_samples/fail/literal-null.missing-null-handler.ts:5-16 | an `RGB or null` visitor with only the member handlers fails to compile; its only violation is the missing `handleNull` |
| StringVisitor.NullHandlerSample | tests/compile_samples/pass/literal-null.explicit-return-type.ts:5-18 | the same visitor with `handleNull` added is well-formed, has no violation, and compiles with its parameterless handlers |
| StringMapper.ExtraEntrySample | tests/compile_samples/mapString/fail/literal-both.extra-handler.ts:5-13 | an `RGB or null or undefined` mapper with an extra `"o"` entry fails to compile; its only violation is the excess `"o"` |
| StringMapper.MapperShapes | src/StringMapper.ts:7-63 | the well-formed key sets of `StringMapper`, `...WithNull`, `...WithUndefined`, `...WithNullAndUndefined`, written out, each with an optional `handleUnexpected` |
| StringMapper.MapperRejectsMissingOrUnnecessary | src/StringMapper.ts:38-51 | a missing member entry, or a `handleNull`/`handleUndefined` entry the variant does not declare, makes a mapper ill-formed |
| StringVisitorFunctionFactory.VisitOwnKey | src/StringVisitorFunctionFactory.ts:55-61 | if the table owns a `hasOwnProperty` entry, that entry takes over the ownership test; otherwise an owned key `String(x)` is invoked with `x` before the catch-all is considered, then `handleUnexpected` gets `x`, and the error `Unexpected value: String(x)` occurs if and only if neither key is owned |
| StringVisitorFunctionFactory.Visit | src/StringVisitorFunctionFactory.ts:53-172 | each closure invokes at most one handler, always with the original input; a channel input goes to its channel handler before any key lookup; every other input takes the own-key path, including a shadowing `hasOwnProperty` entry |
| StringVisitorFunctionFactory.Exhaustive | src/StringVisitorFunctionFactory.ts:53-172 | for a well-formed table and an input of the declared type, the result is never an error; it reaches the table's own `hasOwnProperty` entry exactly when the input is a string and `hasOwnProperty` is a member of `S`; otherwise the handler invoked is owned and is declared to accept its argument |
| StringVisitorFunctionFactory.MemberSelectsOwnHandler | src/StringVisitorFunctionFactory.ts:55-56 | in a well-formed table, member `s` invokes exactly the handler under `s` with `s`, even when `handleUnexpected` is present, unless `hasOwnProperty` is a member of `S`, in which case that entry takes over the ownership test |
| StringVisitorFunctionFactory.UnexpectedHandlerArgument | src/StringVisitorFunctionFactory.ts:88-93 | `handleUnexpected` never receives a value outside its declared parameter type |
| StringVisitorFunctionFactory.DependsOnlyOnKeys | src/StringVisitorFunctionFactory.ts:55-58 | two tables with the same own keys dispatch every input identically, up to the point where a shadowing `hasOwnProperty` entry takes over |
| StringVisitorFunctionFactory.CatchAllOnlyReplacesErrors | src/StringVisitorFunctionFactory.ts:57-60 | adding `handleUnexpected` turns exactly the errors into calls of it and changes no other outcome, the hand-over to a shadowing `hasOwnProperty` entry included |
| StringVisitorFunctionFactory.NarrowingKeepsOtherInputs | src/StringVisitorFunctionFactory.ts:88-96 | on inputs that are not on one of its channels, a narrowed closure behaves like the plain one (e.g. `undefined` in the null variant) |
| StringVisitorFunctionFactory.Scenarios | tests/visitString.test.ts:289-339 | on the colour table, a member calls its handler; with a catch-all, `null`, `undefined`, `"unexpected!"` and `"toString"` all call it; without one they throw `Unexpected value: ...` |
| StringVisitorFunctionFactory.PlainHasNoChannels | src/StringVisitorFunctionFactory.ts:53-62 | the plain closure never reaches `handleNull` or `handleUndefined` through `null` or `undefined`: without a catch-all they throw, with one they call it |
| StringVisitorFunctionFactory.NarrowedScenarios | src/StringVisitorFunctionFactory.ts:84-98 | the `orNull()` closure sends `null` to `handleNull` and throws `Unexpected value: undefined` for `undefined` |
| StringVisitorFunctionFactory.ShadowedOwnershipTest | src/StringVisitorFunctionFactory.ts:55-57 | a table owning a `hasOwnProperty` entry hands every string input, not only `"hasOwnProperty"`, to that entry; channel inputs are unaffected |
| StringVisitorFunctionFactory.NullKeyLookup | src/StringVisitorFunctionFactory.ts:55-56 | without a null channel, `null` selects an own key `"null"` before `handleUnexpected` |
| StringMapperFunctionFactory.MapOwnKey | src/StringMapperFunctionFactory.ts:53-59 | if the table owns a `hasOwnProperty` entry, that entry takes over the ownership test; otherwise an owned key `String(x)` is returned before the catch-all entry, and the error occurs if and only if neither key is owned; nothing is invoked |
| StringMapperFunctionFactory.MapValue | src/StringMapperFunctionFactory.ts:51-166 | each mapper closure returns at most one entry without invoking it; channel inputs return their channel entry before any key lookup |
| StringMapperFunctionFactory.MapperSelectsVisitorKey | src/StringMapperFunctionFactory.ts:51-61 | for tables with the same keys, the mapper returns the entry the visitor would invoke, fails exactly when the visitor fails, with the same message, and reaches a shadowing `hasOwnProperty` entry exactly when the visitor does |
| StringMapperFunctionFactory.MapperExhaustive | src/StringMapperFunctionFactory.ts:150-166 | for a well-formed mapper and an input of the declared type, the result is never an error; it reaches the mapper's own `hasOwnProperty` entry exactly when the input is a string and `hasOwnProperty` is a member of `S`; otherwise it is the member's own entry or the channel entry, and that entry is owned |
| StringMapperFunctionFactory.MapperScenarios | tests/mapString.test.ts:139-182 | on the colour table, a member yields its entry; with a catch-all, `null`, `undefined`, `"unexpected!"` and `"toString"` all yield it; without one they throw `Unexpected value: ...` |
| StringMapperFunctionFactory.MapperPlainHasNoChannels | src/StringMapperFunctionFactory.ts:51-61 | the plain mapper closure never yields `handleNull` or `handleUndefined` for `null` or `undefined`; it looks up `"null"` and `"undefined"` instead |
| StringMapperFunctionFactory.MapperNarrowedScenarios | src/StringMapperFunctionFactory.ts:115-129 | the `orUndefined()` closure yields the `handleUndefined` entry for `undefined` and throws `Unexpected value: null` for `null` |
| StringVisitee.Visitee.With | src/StringVisitee.ts:108-116 | `null` invokes `handleNull`, `undefined` invokes `handleUndefined`, a string invokes its own handler, always with the wrapped value and always exactly one handler |
| StringVisitee.AgreesWithFullFactory | src/StringVisitee.ts:109-115 | wherever the visitee is defined it agrees with the null-and-undefined factory closure, despite the opposite null/undefined check order, except on a string input when the table owns a `hasOwnProperty` entry, where the factory hands over to it |
| StringVisitee.AgreesWithFactory | src/StringVisitee.ts:95-116 | each compile-time view agrees with its variant's factory closure on well-formed tables and declared inputs, unless the input is a string and `hasOwnProperty` is a member of `S`; its precondition holds there |
| StringMappee.Mappee.With | src/StringMappee.ts:108-116 | `null` yields the `handleNull` entry, `undefined` the `handleUndefined` entry, a string its own entry; nothing is invoked |
| StringMappee.AgreesWithFullMapperFactory | src/StringMappee.ts:108-116 | wherever the mappee is defined it agrees with the null-and-undefined mapper factory closure, except on a string input when the mapper owns a `hasOwnProperty` entry |
| StringMappee.AgreesWithMapperFactory | src/StringMappee.ts:95-116 | each compile-time view agrees with its variant's mapper factory closure on well-formed tables and declared inputs, unless the input is a string and `hasOwnProperty` is a member of `S` |
| UnhandledEntry.New | src/UnhandledEntry.ts:25-29 | a falsy message (omitted or `""`) yields the singleton and allocates nothing; any other message yields a fresh instance carrying it |
| UnhandledEntry.NewEach | src/UnhandledEntry.ts:19-29 | over any run of constructions, each messaged instance is distinct from every instance created before it, the singleton included |
| UnhandledEntry.CreateError | src/UnhandledEntry.ts:38-46 | the message is `Unhandled value: String(v)`, with ` - message` appended exactly when the instance has a non-empty message |
| UnhandledEntry.ConstructedErrorMessage | src/UnhandledEntry.ts:25-43 | the error text of a constructed instance contains the constructor's message exactly when that message was not falsy |
| UnhandledEntry.UnhandledIsNotUnexpected | src/UnhandledEntry.ts:39 | an `Unhandled value` message never equals an `Unexpected value` message |
| UnhandledEntry.ConstructorScenarios | tests/UnhandledEntry.test.ts:5-17 | two message-less constructions give the same instance; two with the same message give two instances |
| UnhandledEntry.IsUnhandledEntry | src/UnhandledEntry.ts:53-55 | true for every instance and false for every falsy value |
| UnhandledEntry.IsUnhandledEntryExact | src/UnhandledEntry.ts:5-14 | for every value other than an object carrying the private token in its `token` property, the test holds exactly of the instances |
| UnhandledEntry.CopiedTokenPasses | src/UnhandledEntry.ts:14 | the token is an ordinary property: an object holding a copy of an instance's token passes the test |
| UnhandledEntry.IsUnhandledEntryScenarios | tests/UnhandledEntry.test.ts:48-62 | both kinds of instance pass the test; an object with only a `message` property fails it |

## Left out

- Handler return values: a handler is caller code. `Call(key, arg)` stands for invoking it and returning whatever it returns.
- Jest mocks and call counts: one `Call` outcome is one call of one handler and no call of any other.
- StringVisitee.Visitee.With: a string that the table does not own is excluded by the precondition, because the source would fall back to JavaScript's prototype lookup (e.g. calling `Object.prototype.toString`).
- StringMappee.Mappee.With: a string that the table does not own is excluded by the precondition, for the same reason.
- A channel entry that is missing at run time makes the source throw a `TypeError` (visitor) or return an inherited or `undefined` value (mapper). The model reports the outcome under the channel's key. `Exhaustive` and `MapperExhaustive` show this cannot happen for well-formed tables.
- UnhandledEntry.IsUnhandledEntry: returns a boolean, whereas `value && ...` returns the falsy value itself for falsy inputs. Both are falsy.
- Error object identity (`createError` returns a new `Error` each time): only the message is modelled.
- The factories' static `instance` singletons: they are stateless, so sharing them changes nothing observable.
- Using `UnhandledEntry` inside dispatch: no dispatcher in src/StringVisitorFunctionFactory.ts, src/StringMapperFunctionFactory.ts, src/StringVisitee.ts or src/StringMappee.ts consults it.
- src/visitString.ts and src/mapString.ts: thin wrappers. src/mapString.ts also refers to members that src/StringMappee.ts does not define.
- src/ts-string-visitor.ts and dist/: an older single-file copy of the visitee logic, and build output.
- Type inference of return types and per-key parameter narrowing: compiler behaviour. Only the key-set shape and the declared parameter domains are modelled.
- The compile-sample harnesses: they read files and invoke the TypeScript compiler.
- The unit tests at tests/visitString.test.ts:341-496 and tests/mapString.test.ts:184-318 build their closures with the plain `makeFunctionFor<string>()` and expect `null` and `undefined` to reach `handleNull` and `handleUndefined`. The plain closure in src/StringVisitorFunctionFactory.ts:53-62 and src/StringMapperFunctionFactory.ts:51-61 has no channels, so those expectations are not modelled; the model follows the code (`StringVisitorFunctionFactory.PlainHasNoChannels`).
- The visitee tests at tests/visitString.test.ts:104-204 expect unexpected values to reach `handleUnexpected` or to throw `Unexpected value: ...`; src/StringVisitee.ts consults neither, and the model follows the code.
- StringVisitorFunctionFactory.VisitOwnKey: when the table owns a `hasOwnProperty` entry, the outcome is `Probe(x)`. The model does not follow what that entry returns or which handler, if any, is invoked next.
- StringVisitorFunctionFactory.Visit: a string input that meets a shadowing `hasOwnProperty` entry stops at `Probe(x)`, for the reason given under `VisitOwnKey`.
- StringVisitorFunctionFactory.Exhaustive: when `hasOwnProperty` is a member of `S`, string inputs reach `Probe(x)`, and the lemma does not say which handler runs afterwards.
- StringVisitorFunctionFactory.MemberSelectsOwnHandler: when `hasOwnProperty` is a member of `S`, the lemma only says that dispatch hands over to that entry.
- StringVisitorFunctionFactory.DependsOnlyOnKeys: after a hand-over to a shadowing `hasOwnProperty` entry, what happens depends on that entry's behaviour, which the model does not track.
- StringVisitorFunctionFactory.CatchAllOnlyReplacesErrors: after a hand-over to a shadowing `hasOwnProperty` entry, whether `handleUnexpected` is reached depends on that entry's answer, which the model does not track.
- StringMapperFunctionFactory.MapOwnKey: when the mapper owns a `hasOwnProperty` entry, the outcome is `Probe(x)`. The model does not follow the `TypeError` that follows when the entry is not a function, or the lookup that follows when it is.
- StringMapperFunctionFactory.MapValue: a string input that meets a shadowing `hasOwnProperty` entry stops at `Probe(x)`, as under `MapOwnKey`.
- StringMapperFunctionFactory.MapperSelectsVisitorKey: both styles reach `Probe(x)` together, but what the two shadowing entries answer can differ, and the model does not follow it.
- StringMapperFunctionFactory.MapperExhaustive: when `hasOwnProperty` is a member of `S`, string inputs reach `Probe(x)`, and the lemma does not say which entry is returned afterwards.
- StringVisitee.AgreesWithFullFactory: on a string input and a table owning a `hasOwnProperty` entry, the lemma only says that the factory hands over to that entry, while the visitee invokes the handler directly.
- StringVisitee.AgreesWithFactory: when `hasOwnProperty` is a member of `S`, the lemma does not relate the visitee to the factory on string inputs.
- StringMappee.AgreesWithFullMapperFactory: on a string input and a mapper owning a `hasOwnProperty` entry, the lemma only says that the factory hands over to that entry.
- StringMappee.AgreesWithMapperFactory: when `hasOwnProperty` is a member of `S`, the lemma does not relate the mappee to the factory on string inputs.
- UnhandledEntry.IsUnhandledEntryExact: an object holding a copy of an instance's `token` (for example `{...new UnhandledEntry()}`) passes the test although it is no instance, so exactness is stated only for objects without the private token (`UnhandledEntry.CopiedTokenPasses`).
- CaseSet.Violations: lists every violation of the key-set contract, not the TypeScript compiler's diagnostic list. How many diagnostics the compiler emits, and which violations they mention, is not modelled; the compile tests observe only whether any diagnostic occurs (tests/util/testCompilation.ts:70-79).
- CaseSet.NoViolationsIffWellFormed: speaks of the key set only. A well-formed visitor whose `handleUnexpected` parameter is too narrow (the three incorrect-unexpected-handler samples under tests/compile_samples/visitString/fail/) still fails to compile; `StringVisitor.Compiles` accounts for that.
- StringVisitor.ParamType: records only whether a handler's parameter admits the strings its slot receives, `null` and `undefined`. A parameter typed with the wrong literal (for example `r: (value: "g") => ...`) and return types are not modelled.
- Mapper entry types: a mapper literal is checked by its key set only (`CaseSet.WellFormed`); the value type `R` of its entries is not modelled.
