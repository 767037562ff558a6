/** How the retry loop and the cascade read a provider exception: by class name and base class. */
module Exceptions {

  /** `isTimeout` and `isConnection` say whether the class derives from TimeoutError / ConnectionError. */
  datatype Exn = Exn(name: string, isConnection: bool, isTimeout: bool)

  const PROVIDER_ERROR_NAMES: set<string> := {
    "RateLimitError", "ServiceUnavailableError", "InternalServerError", "APIConnectionError", "Timeout",
    "ConnectError", "TimeoutException", "ReadTimeout", "APIStatusError", "NotFoundError"}

  const RETRYABLE_NAMES: set<string> := {
    "RateLimitError", "ServiceUnavailableError", "InternalServerError", "APIConnectionError",
    "APIStatusError", "Timeout", "ConnectError", "TimeoutException", "ReadTimeout"}

  predicate IsProviderError(e: Exn) {
    e.name in PROVIDER_ERROR_NAMES || e.isConnection || e.isTimeout
  }

  predicate IsRetryable(e: Exn) {
    e.name in RETRYABLE_NAMES || e.isConnection || e.isTimeout
  }

  predicate IsSloTimeout(e: Exn) {
    e.isTimeout || e.name in {"Timeout", "TimeoutException", "ReadTimeout"}
  }

  /** The two classifications differ by exactly one class: a missing model is a provider error that the
      retry loop gives up on at once. A timeout is always both. */
  lemma Classification(e: Exn)
    ensures IsProviderError(e) <==> IsRetryable(e) || e.name == "NotFoundError"
    ensures IsSloTimeout(e) ==> IsRetryable(e)
  {
    assert PROVIDER_ERROR_NAMES == RETRYABLE_NAMES + {"NotFoundError"};
  }
}
