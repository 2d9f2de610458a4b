/** What every component shares. */
module Basics {

  datatype Option<+T> = None | Some(value: T)

  /** A step succeeds, fails, or is cut off by a crash. */
  datatype Outcome = Done | Error | Crashed

  /** How one operation turns out: what it reports, whether an operation that does not
      report success took effect all the same, and whether only a part of it did. */
  datatype Fate = Fate(outcome: Outcome, effect: bool, partial: bool)

  function Bad(o: Outcome): nat {
    if o.Done? then 0 else 1
  }

  /** How many of the first `n` operations do not succeed. */
  function Failures(fate: nat -> Fate, n: nat): nat {
    if n == 0 then 0 else Failures(fate, n - 1) + Bad(fate(n - 1).outcome)
  }
}
