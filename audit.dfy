/** The audit log the workflow appends to before it raises most of its errors. */
module Audit {
  import opened Wrappers
  import opened JsValues

  datatype LogKind =
    | CertificateContentIsUnrecognizable
    | GazpromSignatureIsIncorrect
    | OrderInMongoNotFound
    | ProductInMongoNotFound
    | ProductOwnerInMongoNotFound
    | ProductOwnerBalanceInMongoNotFound
    | IncomingRequestAmountIsIncorrect
    | MongoOrderHasNoPaymentObject
    | GazpromRecurringPaymentInitiationFailed

  datatype LogEntry = LogEntry(kind: LogKind, payload: Fields)

  /** A log payload; a property whose value is undefined is dropped when the entry is serialised. */
  function Payload(pairs: seq<(string, Option<Json>)>): (m: Fields)
    ensures forall k :: k in m ==> exists i :: 0 <= i < |pairs| && pairs[i].0 == k && pairs[i].1.Some?
  {
    if |pairs| == 0 then map[]
    else
      var rest := Payload(pairs[..|pairs| - 1]);
      var (k, v) := pairs[|pairs| - 1];
      if v.Some? then rest[k := v.value] else rest
  }

  /** No later pair gives the key of pair `i` a defined value. */
  predicate LastDefined(pairs: seq<(string, Option<Json>)>, i: nat)
    requires i < |pairs|
  {
    forall j :: i < j < |pairs| && pairs[j].0 == pairs[i].0 ==> pairs[j].1.None?
  }

  /** A defined pair that no later pair overrides is in the payload with its value. */
  lemma {:induction false} PayloadKeepsLastDefined(pairs: seq<(string, Option<Json>)>, i: nat)
    requires i < |pairs| && pairs[i].1.Some? && LastDefined(pairs, i)
    ensures pairs[i].0 in Payload(pairs) && Payload(pairs)[pairs[i].0] == pairs[i].1.value
  {
    var n := |pairs| - 1;
    if i < n {
      var init := pairs[..n];
      assert init[i] == pairs[i];
      assert LastDefined(init, i) by {
        forall j | i < j < |init| && init[j].0 == init[i].0
          ensures init[j].1.None?
        {
          assert init[j] == pairs[j];
        }
      }
      PayloadKeepsLastDefined(init, i);
      assert pairs[n].0 == pairs[i].0 ==> pairs[n].1.None?;
    }
  }

  /** A request id as it appears in a log payload. */
  function IdValue(id: nat): Option<Json>
  {
    Some(JNum(id as real))
  }
}
