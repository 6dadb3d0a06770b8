/** Small value types shared by the stores: optional values and the faults of the document store. */
module Common {

  /** A value that may be absent: `undefined`/`null` in the source, or a field missing from a document. */
  datatype Option<T> = None | Some(value: T) {
    /** JavaScript's `x ?? default` for an optional value. */
    function GetOr(default: T): T {
      if Some? then value else default
    }
  }

  /** What a failed call into the document store throws: an `Error` object with its message, or anything else. */
  datatype Thrown = ErrorObject(message: string) | NonError

  /**
   * Which round trip to the document store fails, if any. The store itself is outside the model, so the
   * caller says which of the operation's calls (numbered from 0 in the order the operation makes them)
   * throws, and what it throws.
   */
  datatype Fault = NoFault | Fails(call: nat, thrown: Thrown) {
    predicate FailsAt(k: nat) {
      Fails? && call == k
    }
  }

  /** JavaScript's `a || b` on two strings: `a` unless it is empty. */
  function OrElse(a: string, b: string): string {
    if a != "" then a else b
  }

  /** JavaScript's `s || ""` on an optional string field. */
  function OrEmpty(s: Option<string>): string {
    s.GetOr("")
  }
}
