/** Small shared vocabulary: optional values, replies that may carry an exception, and
    the sequence helpers used by more than one component. */
module Common {

  datatype Option<+T> = None | Some(value: T)

  /** The exceptions the modelled code raises, by class. */
  datatype Error =
    | ActionExecutionError
    | AdapterTimeout
    | AmbiguousProviderTimeout
    | AdapterRateLimited
    | MalformedAdapterResponse
    | AdapterAuthError
    | PersistenceConflictError
    | LedgerConflictError
    | RecordNotFoundError
    | WorkflowError
    | ApprovalError
    | IdentityError
    | AutonomyControlError
    | ValueError
    | StopIteration
    | ValidationError
    | OpenAIPerRunLimitError
    | OpenAIBudgetExceededError
    | OpenAIBudgetConfigurationError
    | OpenAIRunNotFoundError
    | OpenAIResponseError
    | AgentOutputValidationError
    | OpenAIAgentUnavailableError
  {
    /** `except AdapterError` catches exactly these: every class declared in adapters/errors.py. */
    predicate IsAdapterError() {
      || ActionExecutionError? || AdapterTimeout? || AmbiguousProviderTimeout?
      || AdapterRateLimited? || MalformedAdapterResponse? || AdapterAuthError?
    }

    /** The classes whose write may have landed and is verified before being given up. */
    predicate IsAmbiguousWrite() {
      AmbiguousProviderTimeout? || MalformedAdapterResponse?
    }
  }

  /** What a call hands back to its caller: a value, or the exception it raised. */
  datatype Reply<+T> = Returned(value: T) | Raised(error: Error)

  function Max(a: int, b: int): int {
    if a < b then b else a
  }

  function Min(a: int, b: int): int {
    if a < b then a else b
  }

  lemma PrefixSnoc<T>(s: seq<T>, i: nat)
    requires i < |s|
    ensures s[..i + 1] == s[..i] + [s[i]]
  {}

  lemma WholePrefix<T>(s: seq<T>)
    ensures s[..|s|] == s
  {}

  lemma Associative<T>(a: seq<T>, b: seq<T>, c: seq<T>)
    ensures (a + b) + c == a + (b + c)
  {}
}
