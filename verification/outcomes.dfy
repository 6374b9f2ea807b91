/** The fatal failures of the KPI estimator, and the Option/Result wrappers that carry them. */
module Outcomes {

  datatype Option<+T> = None | Some(value: T)

  /** Every way a run of the estimator dies: there is no recovery from any of them. */
  datatype Failure =
    | NoBaseStation               // no row is named "BaseStation"
    | DanglingParent(id: int)     // a Parent ID that matches no row's ID
    | ZeroDivision                // a percentage whose baseline denominator is zero

  datatype Result<+T> = Ok(value: T) | Err(failure: Failure)
}
