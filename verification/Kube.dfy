// Objects of one namespace that the dataset operator reads and writes for one Dataset
// name, and the answers the API server gives.
module Kube {
  import opened GoText

  type Data = map<string, string>

  // Operator marks what the COS path created; User anything else with the same name.
  datatype Origin = Operator | User
  datatype Phase = ClaimPending | ClaimBound | ClaimLost

  datatype Claim = Claim(origin: Origin, deleting: bool, phase: Phase, readOnlyMany: bool)
  datatype Secret = Secret(origin: Origin, data: Data)

  datatype Internal = Internal(
    local: Data,
    extract: string,
    labels: Data,
    finalizers: set<string>,
    deleting: bool)

  datatype Reply<+T> = Ok(value: T) | NotFound | Failed
}
