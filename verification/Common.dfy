/** Option and Result, used for nullable columns and for raised errors; bounds of batches. */
module Common {
  datatype Option<+T> = None | Some(value: T)

  datatype Result<+T, +E> = Success(value: T) | Failure(error: E)

  function Min(a: int, b: int): int {
    if a <= b then a else b
  }

  function Max(a: int, b: int): int {
    if a >= b then a else b
  }

  /** Where the k-th of consecutive batches ends. */
  function BatchEnd(k: nat, batchSize: nat, total: nat): (end: nat)
    ensures end <= total
  {
    if k == 0 then 0 else Min(BatchEnd(k - 1, batchSize, total) + batchSize, total)
  }

  lemma {:induction false} BatchEndGrows(i: nat, k: nat, batchSize: nat, total: nat)
    requires i <= k
    ensures BatchEnd(i, batchSize, total) <= BatchEnd(k, batchSize, total)
  {
    if i == k {
    } else {
      BatchEndGrows(i, k - 1, batchSize, total);
    }
  }

  lemma BatchEndSteps(k: nat, batchSize: nat, total: nat)
    ensures BatchEnd(0, batchSize, total) == 0
    ensures BatchEnd(k + 1, batchSize, total) == Min(BatchEnd(k, batchSize, total) + batchSize, total)
  {
  }
}
