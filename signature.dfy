/**
 * Verification of the gateway's signature: the signed text is the request
 * URL up to the first "&signature=", and the signature must verify against the
 * merchant's certificate (RSASSA-PKCS1-v1_5 with SHA-1, section 8.2 of
 * RFC 8017, over a base64 signature, section 4 of RFC 4648). The RSA check
 * itself is the parameter `verify`.
 */
module Signature {
  import opened Wrappers
  import opened Failures
  import opened JsValues
  import opened Enums
  import opened Ledger
  import opened Audit
  import opened StoreState

  const Separator := "&signature="

  /** `sep` occurs in `s` starting at position `i`. */
  predicate OccursAt(s: string, sep: string, i: nat)
  {
    i + |sep| <= |s| && s[i..i + |sep|] == sep
  }

  /** The first position at or after `from` where `sep` occurs in `s`. */
  function FirstOccurrence(s: string, sep: string, from: nat): (r: Option<nat>)
    requires from <= |s|
    ensures r.Some? ==> from <= r.value <= |s| && OccursAt(s, sep, r.value)
    ensures r.Some? ==> forall j :: from <= j < r.value ==> !OccursAt(s, sep, j)
    ensures r.None? ==> forall j :: from <= j <= |s| ==> !OccursAt(s, sep, j)
    decreases |s| - from
  {
    if OccursAt(s, sep, from) then Some(from)
    else if from == |s| then None
    else FirstOccurrence(s, sep, from + 1)
  }

  /** `fullUrl.split("&signature=")[0]`: the text the gateway signed. */
  function SignedText(fullUrl: string): string
  {
    match FirstOccurrence(fullUrl, Separator, 0)
    case Some(i) => fullUrl[..i]
    case None => fullUrl
  }

  /**
   * The signed text is the whole URL when it has no signature part; otherwise
   * the URL is the signed text, the separator and the rest. Either way the
   * signed text itself holds no separator.
   */
  lemma SignedTextSplits(fullUrl: string)
    ensures var t := SignedText(fullUrl);
      && t == fullUrl[..|t|]
      && (forall j :: !OccursAt(t, Separator, j))
      && ((forall j :: !OccursAt(fullUrl, Separator, j)) ==> t == fullUrl)
      && ((exists j :: OccursAt(fullUrl, Separator, j)) ==>
            fullUrl == t + Separator + fullUrl[|t| + |Separator|..])
  {
    var t := SignedText(fullUrl);
    match FirstOccurrence(fullUrl, Separator, 0)
    case None =>
      forall j: nat ensures !OccursAt(fullUrl, Separator, j) {
        if j > |fullUrl| {
          assert !OccursAt(fullUrl, Separator, j);
        }
      }
    case Some(i) =>
      forall j: nat ensures !OccursAt(t, Separator, j) {
        if OccursAt(t, Separator, j) {
          assert fullUrl[j..j + |Separator|] == t[j..j + |Separator|];
          assert OccursAt(fullUrl, Separator, j);
        }
      }
      assert fullUrl == t + fullUrl[i..i + |Separator|] + fullUrl[i + |Separator|..];
  }

  /**
   * `isSignatureCorrect`. A request without an object `metadata`, a string
   * `fullUrl` or a string `signature` makes it throw, which its caller treats
   * like a false result.
   */
  function IsSignatureCorrect(request: IncomingRequest, certificate: string, verify: (string, string, string) -> bool): (ok: bool)
    ensures ok ==> request.metadata.Some? && "fullUrl" in request.metadata.value && request.metadata.value["fullUrl"].JStr?
    ensures ok ==> "signature" in request.payload && request.payload["signature"].JStr?
    ensures ok ==> verify(certificate, SignedText(request.metadata.value["fullUrl"].s), request.payload["signature"].s)
    ensures
      (&& request.metadata.Some? && "fullUrl" in request.metadata.value && request.metadata.value["fullUrl"].JStr?
       && "signature" in request.payload && request.payload["signature"].JStr?
       && verify(certificate, SignedText(request.metadata.value["fullUrl"].s), request.payload["signature"].s))
      ==> ok
  {
    && request.metadata.Some?
    && Get(request.metadata.value, "fullUrl").Some? && Get(request.metadata.value, "fullUrl").value.JStr?
    && Get(request.payload, "signature").Some? && Get(request.payload, "signature").value.JStr?
    && verify(certificate, SignedText(Get(request.metadata.value, "fullUrl").value.s), Get(request.payload, "signature").value.s)
  }

  /** `claimSignatureIncorrectness`: mark the request Failed, log, and raise BadRequest. */
  function ClaimSignatureIncorrectness(w: World, requestId: nat): (o: Outcome<()>)
    ensures o.world.db == SetRequestStatus(w.db, requestId, Failed)
    ensures o.world.mongo == w.mongo
    ensures o.world.log == w.log + [LogEntry(GazpromSignatureIsIncorrect, Payload([("incomingRequestId", IdValue(requestId))]))]
    ensures o.result == Err(BadRequest(SignatureIncorrect))
  {
    var updated := w.(db := SetRequestStatus(w.db, requestId, Failed));
    Outcome(Logged(updated, LogEntry(GazpromSignatureIsIncorrect, Payload([("incomingRequestId", IdValue(requestId))]))),
      Err(BadRequest(SignatureIncorrect)))
  }

  /** `verify`: a correct signature changes nothing; any other leads to the claim. */
  function VerifySignature(w: World, request: Row<IncomingRequest>, certificate: string, verify: (string, string, string) -> bool): (o: Outcome<()>)
    ensures o.result.Ok? <==> IsSignatureCorrect(request.data, certificate, verify)
    ensures o.result.Ok? ==> o.world == w
    ensures o.result.Err? ==> o == ClaimSignatureIncorrectness(w, request.id)
  {
    if IsSignatureCorrect(request.data, certificate, verify) then Outcome(w, Ok(()))
    else ClaimSignatureIncorrectness(w, request.id)
  }

  /** A rejected signature leaves the request Failed in the ledger, whatever its status was. */
  lemma RejectedSignatureFailsRequest(w: World, request: Row<IncomingRequest>, certificate: string, verify: (string, string, string) -> bool)
    requires ValidTable(w.db.incomingRequests) && request.id in Ids(w.db.incomingRequests.rows)
    requires !IsSignatureCorrect(request.data, certificate, verify)
    ensures var db := VerifySignature(w, request, certificate, verify).world.db;
      FindById(db.incomingRequests, request.id).Some? && FindById(db.incomingRequests, request.id).value.data.status == Failed
  {
    SetRequestStatusEffect(w.db, request.id, Failed);
  }
}
