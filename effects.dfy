/** What a source reports besides its keys: the warnings it prints and the remote
    requests it issues, in the order they happen. */
module Effects {
  import opened Wrappers

  /** One call of the warning logger: the error text, then the message. */
  datatype Warning = Warning(cause: string, message: string)

  /** The values a step produced, with the warnings and requests it issued on the way. */
  datatype Gathered<T, R> = Gathered(values: seq<T>, warnings: seq<Warning>, requests: seq<R>)

  function Nothing<T, R>(): Gathered<T, R>
  {
    Gathered([], [], [])
  }

  /** Running one step after another: everything is appended in order. */
  function Then<T, R>(a: Gathered<T, R>, b: Gathered<T, R>): Gathered<T, R>
  {
    Gathered(a.values + b.values, a.warnings + b.warnings, a.requests + b.requests)
  }

  /** The single warning printed when a listing stopped on an error, or none. */
  function WarnIf(failure: Option<string>, message: string): seq<Warning>
  {
    if failure.Some? then [Warning(failure.value, message)] else []
  }

  /** Validation messages that carry this marker are only printed; all others abort the run. */
  const WarningMarker := "[warning]"

  predicate IsWarning(msg: string)
  {
    |msg| >= |WarningMarker| && msg[..|WarningMarker|] == WarningMarker
  }

  /** A message that does not open with '[' carries no warning marker. */
  lemma NotWarning(msg: string)
    requires |msg| > 0 && msg[0] != '['
    ensures !IsWarning(msg)
  {
    if |msg| >= |WarningMarker| {
      assert msg[..|WarningMarker|][0] != WarningMarker[0];
    }
  }
}
