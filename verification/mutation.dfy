/**
 * A write mutation (`useMutation`) as the deposit and withdrawal screens see
 * it: `isLoading` is `isPending`, `isConfirmed` is `isSuccess`, and `error`
 * is the value the mutation function threw.
 */
module Mutation {
  import opened ErrorFormatter

  /**
   * `Requested` is the state between `mutate` and the pending notification:
   * neither loading, confirmed nor failed.
   */
  datatype Status = Idle | Requested | Pending | Succeeded | Failed(error: ErrorValue)

  /** What the mutation cache reports about the current mutation. */
  datatype Event = Started | Resolved | Rejected(error: ErrorValue)

  predicate IsLoading(s: Status) { s.Pending? }
  predicate IsConfirmed(s: Status) { s.Succeeded? }

  /** `error && ...`: a thrown falsy value does not count as an error. */
  predicate HasError(s: Status) { s.Failed? && s.error.Thrown? }

  /** `reset()`: the observer forgets its mutation. */
  const Reset: Status := Idle

  /** `mutate(...)`: never throws synchronously; the outcome arrives as events. */
  const Mutate: Status := Requested

  /**
   * An event applies only to a mutation in flight; after `reset()` the old
   * mutation's start and result are dropped.
   */
  function Step(s: Status, e: Event): (t: Status)
    ensures s.Requested? && e.Started? ==> t == Pending
    ensures s.Pending? && e.Resolved? ==> t == Succeeded
    ensures s.Pending? && e.Rejected? ==> t == Failed(e.error)
    ensures !(s.Requested? && e.Started?) && !(s.Pending? && !e.Started?) ==> t == s
  {
    match (s, e)
    case (Requested, Started) => Pending
    case (Pending, Resolved) => Succeeded
    case (Pending, Rejected(err)) => Failed(err)
    case _ => s
  }

  /** The status after the cache reports `events` in order. */
  function Run(s: Status, events: seq<Event>): Status
    decreases |events|
  {
    if |events| == 0 then s else Run(Step(s, events[0]), events[1..])
  }

  /** At most one of the three flags an effect reads holds at a time. */
  lemma FlagsExclusive(s: Status)
    ensures !(IsLoading(s) && IsConfirmed(s))
    ensures !(IsLoading(s) && HasError(s))
    ensures !(IsConfirmed(s) && HasError(s))
  {
  }

  /** Once reset, no late event of the forgotten mutation is ever seen. */
  lemma {:induction false} ResetIgnoresLateEvents(events: seq<Event>)
    ensures Run(Reset, events) == Idle
    decreases |events|
  {
    if |events| > 0 {
      ResetIgnoresLateEvents(events[1..]);
    }
  }

  /** A settled mutation stays settled until it is reset or mutated again. */
  lemma {:induction false} SettledIsFinal(s: Status, events: seq<Event>)
    requires s.Succeeded? || s.Failed?
    ensures Run(s, events) == s
    decreases |events|
  {
    if |events| > 0 {
      SettledIsFinal(Step(s, events[0]), events[1..]);
    }
  }
}
