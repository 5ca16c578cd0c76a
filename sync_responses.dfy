/**
 * The JSON bodies the two bidirectional channel controllers answer with:
 * an error body (`success` false and the error text), the body of a
 * completed setup, and the report of a "synchronise every connection"
 * request. Timestamps in the bodies are left out.
 */
module SyncResponses {
  import opened Wrappers

  /** One entry of a report: the connection's property, and whether its synchronisation went through. */
  datatype SyncResult = SyncResult(propertyId: Option<string>, propertyName: Option<string>, succeeded: bool)

  datatype Response =
    | Failure(error: string)
    | SetupDone(exportUrl: string, configId: nat, roomAssociated: Option<bool>, roomNumber: Option<int>)
    | SyncReport(totalConnections: nat, successCount: nat, errorCount: nat, results: seq<SyncResult>)

  /** The `success` entry of the body. */
  predicate Success(r: Response) { !r.Failure? }

  /** createErrorResponse: an unsuccessful body that carries the error text. */
  function CreateErrorResponse(error: string): (r: Response)
    ensures !Success(r) && r.error == error
  {
    Failure(error)
  }

  /** The number of entries of a report that went through. */
  function SuccessCount(results: seq<SyncResult>): (n: nat)
    ensures n <= |results|
    ensures n == |results| <==> forall k :: 0 <= k < |results| ==> results[k].succeeded
  {
    if results == [] then 0
    else
      var init := results[..|results| - 1];
      assert forall k :: 0 <= k < |init| ==> init[k] == results[k];
      SuccessCount(init) + if results[|results| - 1].succeeded then 1 else 0
  }

  /** One more entry counts one more success exactly when it went through. */
  lemma SuccessCountAppend(results: seq<SyncResult>, x: SyncResult)
    ensures SuccessCount(results + [x]) == SuccessCount(results) + if x.succeeded then 1 else 0
  {
    assert (results + [x])[..|results|] == results;
  }
}
