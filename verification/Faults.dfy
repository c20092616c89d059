/** How a step on files may go wrong. */
module Faults {
  /** Before or after its effect, or part of the way through: some files are left, or a file is cut short. */
  datatype Moment = Before | Midway(kept: set<string>, length: nat) | After

  /** A fault is reported to the running process, or kills it. */
  datatype Fault = NoFault | Fault(moment: Moment, halts: bool)
}
