/**
  The bulk-import job client: creating an import answers with one or more
  batches, and reading a batch's status answers with that batch, its derived
  `processed` count filled in from the two kind-specific counters.
 */
module Bulk {
  import opened Wrappers
  import opened Api

  // The status strings the service reports; any other string is passed through.
  const BatchComplete := "Complete"
  const BatchQueued := "Queued"
  const BatchImporting := "Importing"
  const BatchFailed := "Failed"

  /** One batch of an import, as decoded from the service's answer. */
  datatype BatchResult = BatchResult(
    batchId: int,
    importId: string,
    status: string,
    leadsProcessed: int,
    failures: int,
    warnings: int,
    message: string,
    objectsProcessed: int,
    objectName: string,
    processed: int)  // never decoded; derived locally by the status call

  /**
    The batch with its derived count set: the lead counter when it is positive,
    the object counter otherwise.
   */
  function WithProcessed(b: BatchResult): (r: BatchResult)
    ensures r.(processed := b.processed) == b
    ensures r.processed == b.leadsProcessed || r.processed == b.objectsProcessed
    ensures b.leadsProcessed > 0 ==> r.processed == b.leadsProcessed
    ensures b.leadsProcessed <= 0 ==> r.processed == b.objectsProcessed
    // With non-negative counters of which at most one is set, the set one is taken.
    ensures b.leadsProcessed >= 0 && b.objectsProcessed >= 0 && (b.leadsProcessed == 0 || b.objectsProcessed == 0)
            ==> r.processed == b.leadsProcessed + b.objectsProcessed
  {
    var r := b.(processed := b.objectsProcessed);
    if b.leadsProcessed > 0 then r.(processed := b.leadsProcessed) else r
  }

  /** Sets the derived count of every batch in place; nothing else changes. */
  method NormaliseProcessed(a: array<BatchResult>)
    modifies a
    ensures forall i :: 0 <= i < a.Length ==> a[i] == WithProcessed(old(a[i]))
  {
    for i := 0 to a.Length
      invariant forall k :: 0 <= k < i ==> a[k] == WithProcessed(old(a[k]))
      invariant forall k :: i <= k < a.Length ==> a[k] == old(a[k])
    {
      var r := a[i];
      a[i] := r.(processed := r.objectsProcessed);
      if r.leadsProcessed > 0 {
        a[i] := a[i].(processed := r.leadsProcessed);
      }
    }
  }

  /**
    The outcome of the create call, given its answer: the decoded batch list,
    unchanged, or the first error met.
   */
  function Create(resp: Response<seq<BatchResult>>): (r: Result<seq<BatchResult>, Error>)
    ensures resp.code != StatusOK ==> r == Err(HttpStatus(CreateImport, resp.code))
    ensures resp.code == StatusOK && resp.body.Err? ==> r == Err(Propagated(resp.body.error))
    ensures Decoded(resp) && resp.body.value.errors != [] ==> r == Err(Api(StatusOK, resp.body.value.errors))
    ensures Accepted(resp) && resp.body.value.result.err.Some?
            ==> r == Err(Propagated(resp.body.value.result.err.value))
    ensures r.Ok? <==> Accepted(resp) && resp.body.value.result.err.None?
    ensures r.Ok? ==> r.value == resp.body.value.result.value
  {
    Payload(CreateImport, resp)
  }

  /**
    The outcome of the status call, given its answer: "not found" for an empty
    batch list, otherwise the first batch with its derived count set.
   */
  method Get(resp: Response<seq<BatchResult>>) returns (r: Result<BatchResult, Error>)
    ensures resp.code != StatusOK ==> r == Err(HttpStatus(GetImport, resp.code))
    ensures resp.code == StatusOK && resp.body.Err? ==> r == Err(Propagated(resp.body.error))
    ensures Decoded(resp) && resp.body.value.errors != [] ==> r == Err(Api(StatusOK, resp.body.value.errors))
    ensures Accepted(resp) && resp.body.value.result.err.Some?
            ==> r == Err(Propagated(resp.body.value.result.err.value))
    ensures Accepted(resp) && resp.body.value.result.err.None? && resp.body.value.result.value == []
            ==> r == Err(NotFound)
    ensures Accepted(resp) && resp.body.value.result.err.None? && resp.body.value.result.value != []
            ==> r == Ok(WithProcessed(resp.body.value.result.value[0]))
  {
    var payload := Payload(GetImport, resp);
    if payload.Err? {
      return Err(payload.error);
    }
    var result := payload.value;
    if |result| < 1 {
      return Err(NotFound);
    }
    var batches := new BatchResult[|result|](i requires 0 <= i < |result| => result[i]);
    NormaliseProcessed(batches);
    return Ok(batches[0]);
  }
}
