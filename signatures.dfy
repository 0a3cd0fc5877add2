/**
 * Signatures are built by reflection over a Python callable, which is not part of this model.
 * A signature is kept only as far as the function layer inspects it.
 */
module Signatures {

  /**
   * `paramCount` is `len(sig.parameters)`, `batchedParameters` the positions of the parameters
   * declared as `Batch`, `isBatched` whether the return type is a `Batch`, and `text` what
   * `str(sig)` prints.
   */
  datatype Signature = Signature(paramCount: nat, batchedParameters: set<nat>, isBatched: bool, text: string)
}
