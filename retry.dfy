/**
 * The query-client retry rule that app/page.tsx and app/results/page.tsx
 * both configure: never retry an error whose `status` is 404, otherwise
 * retry while fewer than three attempts have failed.
 */
module Retry {
  import opened Wrappers

  /** `retry(failureCount, error)`, where `errorStatus` is the error's `status` property, if any. */
  function ShouldRetry(failureCount: nat, errorStatus: Option<int>): (r: bool)
    ensures errorStatus == Some(404) ==> !r
    ensures errorStatus != Some(404) ==> (r <==> failureCount < 3)
  {
    if errorStatus == Some(404) then false else failureCount < 3
  }

  /** How many of the failure counts `0 .. n - 1` the rule retries after. */
  function RetriesAmong(n: nat, errorStatus: Option<int>): nat {
    if n == 0 then 0
    else RetriesAmong(n - 1, errorStatus) + (if ShouldRetry(n - 1, errorStatus) then 1 else 0)
  }

  /** A query is retried at most three times, and a 404 never. */
  lemma {:induction false} RetriesBounded(n: nat, errorStatus: Option<int>)
    ensures errorStatus == Some(404) ==> RetriesAmong(n, errorStatus) == 0
    ensures errorStatus != Some(404) ==> RetriesAmong(n, errorStatus) == if n < 3 then n else 3
  {
    if n > 0 {
      RetriesBounded(n - 1, errorStatus);
    }
  }

  /** Once the rule gives up it never retries again. */
  lemma GivesUpForGood(m: nat, n: nat, errorStatus: Option<int>)
    requires m <= n && !ShouldRetry(m, errorStatus)
    ensures !ShouldRetry(n, errorStatus)
  {
  }
}
