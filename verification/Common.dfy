/** Small types shared by every module. */
module Common {
  datatype Option<+T> = None | Some(value: T)

  /** How one call to the API server or to a store ends: it goes through, it
      fails before it changed anything, or it changes what it was asked to
      change and the answer is lost. */
  datatype Fault = NoFault | FailsBefore | FailsAfter

  /** How a run ended: no item failed, some did, or abort ended it. Only the first
      is the phase Succeeded. */
  datatype Ending = AllSucceeded | SomeFailed | Aborted
}
