/**
 * The page-wide state the tracking code reads and changes: whether a
 * `window` exists, whether the third-party tracking handle `window.fbq`
 * is installed, and the calls made on that handle so far.
 */
module Browser {
  import opened Wrappers
  import opened JsValues

  /** One invocation of the handle: `fbq(verb, name, args)`; `args` is `None` when `undefined` is passed. */
  datatype Call = Call(verb: string, name: string, args: Option<Payload>)

  /** The kind of console output an operation ends with. */
  datatype LogLevel = Quiet | Info | Warn | Error

  class Window {
    /** `typeof window !== "undefined"`: false while rendering on the server. */
    var hasWindow: bool
    /** `window.fbq` is set (truthy). */
    var handlePresent: bool
    /** Every invocation of `window.fbq`, oldest first, including those that threw. */
    var calls: seq<Call>
    /** The invocations on which the handle throws. */
    var failsOn: set<Call>

    constructor (hasWindow: bool, handlePresent: bool, failsOn: set<Call>)
      ensures this.hasWindow == hasWindow && this.handlePresent == handlePresent
      ensures this.failsOn == failsOn && calls == []
    {
      this.hasWindow := hasWindow;
      this.handlePresent := handlePresent;
      this.failsOn := failsOn;
      calls := [];
    }

    /** The guard every tracking operation evaluates first: a window exists and `window.fbq` is set. */
    predicate Ready()
      reads this
    {
      hasWindow && handlePresent
    }

    /** Invokes the handle; `threw` says whether the invocation raised an exception. */
    method Invoke(c: Call) returns (threw: bool)
      requires Ready()
      modifies this`calls
      ensures calls == old(calls) + [c]
      ensures threw <==> c in failsOn
    {
      calls := calls + [c];
      threw := c in failsOn;
    }
  }
}
