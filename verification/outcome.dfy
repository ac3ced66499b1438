/**
 What one dispatch does: invoke one handler, hand back one entry, throw, or
 hand control to a table that replaces the ownership test.
 */
module Outcomes {
  import opened Js

  /** The name of the method the factories call on the table itself to test
      ownership (`table.hasOwnProperty(value)`). */
  const HasOwnPropertyName: string := "hasOwnProperty"

  /** The ownership test is `Object.prototype.hasOwnProperty`, because the
      table does not own an entry that shadows it. */
  predicate StandardOwnershipTest<E>(table: map<string, E>) {
    HasOwnPropertyName !in table
  }

  /** `Call(key, arg)`: the handler stored under `key` is invoked once, with
      `arg` as its sole argument, and its return value is the result.
      `Value(key)`: the entry stored under `key` is returned as it is.
      `Err(message)`: an `Error` with this message is thrown and nothing is invoked.
      `Probe(arg)`: the table owns a `hasOwnProperty` entry, so the ownership
      test applies that entry to `arg` (a `TypeError` if it is not a
      function); what happens next depends on what it returns, and the model
      does not follow it. */
  datatype Outcome = Call(key: string, arg: Input) | Value(key: string) | Err(message: string) | Probe(arg: Input)

  /** The message thrown when no entry matches: `Unexpected value: ${value}`. */
  function UnexpectedValueMessage(x: Input): string {
    "Unexpected value: " + ToJsString(x)
  }
}
