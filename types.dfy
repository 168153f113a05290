/** The status values every work unit carries (src/types.ts). */
module Types {

  /** The five-value `Status` union. */
  datatype Status = Pending | Running | Skipped | Passed | Failed

  /** A status from which a finished run leaves the unit. */
  predicate IsTerminal(s: Status)
  {
    s == Skipped || s == Passed || s == Failed
  }
}
