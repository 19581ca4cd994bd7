/** Outcomes of script operations and the error codes of error.go that they can carry. */
module ScriptErrors {

  datatype ScriptError =
    | NumberTooBig | MinimalData | InvalidStackOperation | MalformedPush
    | InvalidIndex | EvalFalse | NotPushOnly | ScriptTooBig
    | InvalidProgramCounter | ScriptUnfinished | CleanStack | EmptyStack
    | StackOverflow | UnbalancedConditional | DisabledOpcode | ReservedOpcode
    | ElementTooBig | MinimalIf | VerifyFailed | EarlyReturn
    | DiscourageUpgradableNops | LockTimeFailed
    | InvalidPubKeyCount | TooManyOperations | InvalidSignatureCount | SigNullDummy
    | InvalidSigHashType | SigEncoding | PubKeyType | NullFail
    // An index out of range: the source panics instead of returning an error.
    | RuntimePanic

  datatype Result<+T> = Ok(value: T) | Err(error: ScriptError) {
    predicate IsFailure() { Err? }
    function PropagateFailure<U>(): Result<U>
      requires Err?
    {
      Err(error)
    }
    function Extract(): T
      requires Ok?
    {
      value
    }
  }
}
