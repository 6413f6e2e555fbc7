/** How one remote call can go wrong. */
module Faults {

  /** What the text of an error says, as far as the driver looks at it. */
  datatype Code = Unprocessable | Unavailable

  datatype Fault =
    | Works
    | Rejected(code: Code)   // the call fails and has no effect
    | LostReply(code: Code)  // the call takes effect, and still reports a failure

  /** The faults of the calls to come; once the list is used up every call works. */
  type Faults = seq<Fault>

  function Next(faults: Faults): Fault {
    if faults == [] then Works else faults[0]
  }

  function Later(faults: Faults): Faults {
    if faults == [] then [] else faults[1..]
  }

  /** The call has its effect, whether or not it says so. */
  predicate TakesEffect(f: Fault) {
    !f.Rejected?
  }

  /** n calls that work, then the given faults. */
  function WorksFor(n: nat, faults: Faults): Faults
    decreases n
  {
    if n == 0 then faults else [Works] + WorksFor(n - 1, faults)
  }
}
