/** Small shared vocabulary: options and the answers of the Kubernetes API server. */
module Common {

  datatype Option<+T> = None | Some(value: T)

  const ROLLING_UPDATE := "zalando-postgres-operator-rolling-update-required"

  lemma MarkerParts(a: string, b: string)
    requires a == "zalando-postgres-operator-" && b == "rolling-update-required"
    ensures ROLLING_UPDATE == a + b
  {
  }

  lemma Assoc<T>(a: seq<T>, b: seq<T>, c: seq<T>)
    ensures a + b + c == a + (b + c)
    ensures a <= a + b && (a + b)[|a|..] == b
  {
  }

  /** The annotation a cordoned node carries, and the two annotations of the marker protocol. */
  const CORDONED_BY := "k8s-rollout-restart/cordoned-by"

  const MARKED_BY := "k8s-rollout-restart/marked-by"

  /** A failed request: an API status, or no usable answer at all (connection broken, request cancelled).
      `timeout` is true when the status reason is Timeout or ServerTimeout. */
  datatype ApiError = Status(code: int, timeout: bool) | Transport

  /** The mutation was certainly not applied: a 4xx answer other than 408. */
  predicate MutationDefinitelyFailed(e: ApiError) {
    e.Status? && 400 <= e.code < 500 && e.code != 408
  }

  /** The object changed concurrently: 409, or 422 from a failed JSON Patch test. */
  predicate IsRetryablePatchError(e: ApiError) {
    e.Status? && (e.code == 409 || e.code == 422)
  }

  predicate IsNotFound(e: ApiError) {
    e.Status? && e.code == 404
  }

  predicate IsConflict(e: ApiError) {
    e.Status? && e.code == 409
  }

  /** The node patch's own notion of "may nevertheless have been applied". */
  predicate IsUncertain(e: ApiError) {
    match e
    case Transport => true
    case Status(code, timeout) => code == 0 || code >= 500 || timeout
  }

  /** The two classifiers of a failed mutation disagree: some answers that the restart paths treat as "may have been
      applied" are not followed up by the node cordon.  These are exactly the non-4xx client-side statuses and 408,
      when they do not carry a timeout reason. */
  lemma ClassifiersDisagree(e: ApiError)
    ensures (!MutationDefinitelyFailed(e) && !IsUncertain(e)) <==>
            (e.Status? && !e.timeout && e.code != 0 && (e.code < 400 || e.code == 408))
    ensures (MutationDefinitelyFailed(e) && IsUncertain(e)) <==>
            (e.Status? && e.timeout && 400 <= e.code < 500 && e.code != 408)
    ensures e.Transport? || e.code == 0 || e.code >= 500 ==> !MutationDefinitelyFailed(e) && IsUncertain(e)
    ensures e.Status? && 400 <= e.code < 500 && e.code != 408 && !e.timeout ==> MutationDefinitelyFailed(e) && !IsUncertain(e)
  {
  }
}
