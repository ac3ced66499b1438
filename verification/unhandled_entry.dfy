/**
 The marker placed in a table entry that is deliberately not handled.
 Object identity is modelled by a numeric id handed out by a registry;
 id 0 is the singleton created when the class is loaded.
 */
module UnhandledEntry {
  import opened Js

  /** An instance: its identity and its optional diagnostic message. */
  datatype Entry = Entry(id: nat, message: Option<string>)

  /** Allocation state: the ids below `next` belong to existing instances. */
  datatype Registry = Registry(next: nat)

  /** The shared instance without a message. */
  const SingletonInstance: Entry := Entry(0, None)

  /** The state right after the class is loaded: only the singleton exists. */
  const Loaded: Registry := Registry(1)

  predicate Valid(r: Registry) {
    r.next >= 1
  }

  /** A message the constructor treats as absent: omitted or empty. */
  predicate Falsy(message: Option<string>) {
    message.None? || message.value == ""
  }

  /** `new UnhandledEntry(message)`: a falsy message yields the singleton and
      allocates nothing; any other message yields a fresh instance. */
  function New(r: Registry, message: Option<string>): (res: (Entry, Registry))
    requires Valid(r)
    ensures Valid(res.1)
    ensures Falsy(message) ==> res.0 == SingletonInstance && res.1 == r
    ensures !Falsy(message) ==> res.0.message == message && r.next <= res.0.id < res.1.next
  {
    if Falsy(message) then (SingletonInstance, r)
    else (Entry(r.next, message), Registry(r.next + 1))
  }

  /** A run of constructor calls, threading the registry. Every call with a
      message yields an instance distinct from every instance handed out
      before it, the singleton included; every falsy call yields the singleton. */
  function NewEach(r: Registry, messages: seq<Option<string>>): (res: (seq<Entry>, Registry))
    requires Valid(r)
    ensures Valid(res.1) && r.next <= res.1.next && |res.0| == |messages|
    ensures forall i | 0 <= i < |messages| ::
      Falsy(messages[i]) ==> res.0[i] == SingletonInstance
    ensures forall i | 0 <= i < |messages| ::
      !Falsy(messages[i]) ==> res.0[i].message == messages[i] && r.next <= res.0[i].id < res.1.next
    ensures forall i, j | 0 <= i < j < |messages| ::
      !Falsy(messages[j]) ==> res.0[i].id < res.0[j].id
    decreases |messages|
  {
    if messages == [] then ([], r)
    else
      var (first, r1) := New(r, messages[0]);
      var (rest, r2) := NewEach(r1, messages[1..]);
      ([first] + rest, r2)
  }

  /** `createError(value).message`: `Unhandled value: ${value}`, followed by
      ` - ${message}` when the instance carries a non-empty message. */
  function CreateError(e: Entry, unhandledValue: Input): (message: string)
    ensures Falsy(e.message) ==> message == "Unhandled value: " + ToJsString(unhandledValue)
    ensures !Falsy(e.message)
        ==> message == "Unhandled value: " + ToJsString(unhandledValue) + " - " + e.message.value
  {
    var base := "Unhandled value: " + ToJsString(unhandledValue);
    if e.message.Some? && e.message.value != "" then base + " - " + e.message.value else base
  }

  /** The error of an instance built by the constructor mentions the
      constructor's message exactly when that message was not falsy. */
  lemma ConstructedErrorMessage(r: Registry, message: Option<string>, x: Input)
    requires Valid(r)
    ensures CreateError(New(r, message).0, x)
         == "Unhandled value: " + ToJsString(x) + (if Falsy(message) then "" else " - " + message.value)
  {
  }

  /** An `Unhandled value` error is never mistaken for an `Unexpected value` error. */
  lemma UnhandledIsNotUnexpected(e: Entry, x: Input, y: Input)
    ensures CreateError(e, x) != "Unexpected value: " + ToJsString(y)
  {
    var m := CreateError(e, x);
    assert m[2] == 'h';
    assert ("Unexpected value: " + ToJsString(y))[2] == 'e';
  }

  /** The unit tests' cases: two message-less constructions give the same
      instance, two constructions with the same message give two instances. */
  lemma ConstructorScenarios()
    ensures New(Loaded, None).0 == New(New(Loaded, None).1, None).0
    ensures New(Loaded, Some("")).0 == SingletonInstance
    ensures New(Loaded, Some("Test message")).0
         != New(New(Loaded, Some("Test message")).1, Some("Test message")).0
  {
  }

  /** Symbols are identities; the class keeps one of them private. */
  type Symbol = nat

  /** The private token every instance carries. */
  const Token: Symbol := 0

  /** The argument of `isUnhandledEntry`: a falsy value, an instance, or any
      other object, possibly with a `token` property. */
  datatype AnyValue = FalsyValue | EntryValue(entry: Entry) | ObjectValue(token: Option<Symbol>)

  /** An object that does not carry the private token in its `token`
      property. Code outside the class cannot name the token, but it can
      copy it off an instance (see `CopiedTokenPasses`). */
  predicate Foreign(v: AnyValue) {
    v.ObjectValue? ==> v.token != Some(Token)
  }

  /** The `token` property of a truthy value; every instance carries the private token. */
  function TokenOf(v: AnyValue): Option<Symbol>
    requires !v.FalsyValue?
  {
    match v
    case EntryValue(_) => Some(Token)
    case ObjectValue(t) => t
  }

  /** `isUnhandledEntry(value)`: the value is truthy and its token is the private one. */
  function IsUnhandledEntry(v: AnyValue): (b: bool)
    ensures v.FalsyValue? ==> !b
    ensures v.EntryValue? ==> b
  {
    !v.FalsyValue? && TokenOf(v) == Some(Token)
  }

  /** For every value other than an object carrying the private token, the
      test is exact: it holds of every instance, singleton or messaged, and
      of nothing else. */
  lemma IsUnhandledEntryExact(v: AnyValue)
    requires Foreign(v)
    ensures IsUnhandledEntry(v) <==> v.EntryValue?
  {
  }

  /** The token is an ordinary own property, so an object that copies it
      off an instance (`{...new UnhandledEntry()}`) passes the test too. */
  lemma CopiedTokenPasses(e: Entry)
    ensures IsUnhandledEntry(ObjectValue(TokenOf(EntryValue(e))))
  {
  }

  /** The unit tests' cases: both kinds of instance pass, a look-alike with
      only a `message` property fails. */
  lemma IsUnhandledEntryScenarios(r: Registry)
    requires Valid(r)
    ensures IsUnhandledEntry(EntryValue(New(r, None).0))
    ensures IsUnhandledEntry(EntryValue(New(r, Some("Test message")).0))
    ensures !IsUnhandledEntry(ObjectValue(None))
  {
  }
}
