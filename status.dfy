/** The status codes of an asset log entry (modules/s3db/asset.py, lines 64-72). */
module LogStatus {

  const SetBase: int := 1
  const Assign: int := 2
  const Return: int := 3
  const Check: int := 4
  const Repair: int := 5
  const Donated: int := 32
  const Lost: int := 33
  const Stolen: int := 34
  const Destroy: int := 35

  /** Every code the status column accepts. */
  const All: set<int> := {SetBase, Assign, Return, Check, Repair, Donated, Lost, Stolen, Destroy}

  /** The codes that move the asset: base set, assignment and return. */
  const Movements: set<int> := {SetBase, Assign, Return}

  /** Codes below Donated mean the asset is still in service. */
  predicate InService(status: int)
  {
    status < Donated
  }

  /** Codes from Donated to Destroy mean the asset has been disposed of. */
  predicate Disposed(status: int)
  {
    Donated <= status <= Destroy
  }

  /** On the codes the column accepts, "disposed" is exactly "not in service". */
  lemma DisposedIsNotInService(status: int)
    requires status in All
    ensures Disposed(status) <==> !InService(status)
    ensures InService(status) <==> status in {SetBase, Assign, Return, Check, Repair}
  {
  }
}
