/** The request body of the evaluation endpoint, a plain data carrier. */
module Requests {
  import opened Wrappers
  import opened Engine

  /** `dmnFile`, `decisionName` and `inputData`, each of which may be null. */
  datatype DmnRequest = DmnRequest(
    dmnFile: Option<string>,
    decisionName: Option<string>,
    inputData: Option<map<string, Value>>)
}
