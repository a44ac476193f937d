/**
 * The status classifier: gRPC status code to HTTP status class, after the
 * gRPC project's HTTP/gRPC status-mapping document. The classes are those of
 * section 15 of RFC 9110, 429 from section 4 of RFC 6585, and the
 * non-standard 499 "Client Closed Request".
 */
module Classifier {
  import opened Codes

  /** Every class the classifier can produce. */
  const HttpClasses: set<int> := {200, 400, 401, 403, 404, 409, 429, 499, 500, 501, 503, 504}

  /** grpcCodeToHTTP: a closed table; anything outside it is a server error. */
  function CodeToHttp(code: Code): (status: int)
    ensures status in HttpClasses
    ensures status == 200 <==> code == OK
    ensures !IsCanonical(code) ==> status == 500
  {
    if code == OK then 200
    else if code == Canceled then 499
    else if code == Unknown then 500
    else if code == InvalidArgument then 400
    else if code == DeadlineExceeded then 504
    else if code == NotFound then 404
    else if code == AlreadyExists then 409
    else if code == PermissionDenied then 403
    else if code == ResourceExhausted then 429
    else if code == FailedPrecondition then 400
    else if code == Aborted then 409
    else if code == OutOfRange then 400
    else if code == Unimplemented then 501
    else if code == Internal then 500
    else if code == Unavailable then 503
    else if code == DataLoss then 500
    else if code == Unauthenticated then 401
    else 500
  }

  /** The expected classification of each canonical code, in numeric order of the codes. */
  const ExpectedTable: seq<(Code, int)> := [
    (OK, 200), (Canceled, 499), (Unknown, 500), (InvalidArgument, 400),
    (DeadlineExceeded, 504), (NotFound, 404), (AlreadyExists, 409),
    (PermissionDenied, 403), (ResourceExhausted, 429), (FailedPrecondition, 400),
    (Aborted, 409), (OutOfRange, 400), (Unimplemented, 501), (Internal, 500),
    (Unavailable, 503), (DataLoss, 500), (Unauthenticated, 401)
  ]

  /** The table covers exactly the canonical codes, and the classifier agrees with every row. */
  lemma MatchesExpectedTable()
    ensures |ExpectedTable| == 17
    ensures forall code: Code :: IsCanonical(code) <==> code as int < |ExpectedTable|
    ensures forall i :: 0 <= i < |ExpectedTable| ==>
              ExpectedTable[i].0 as int == i && CodeToHttp(ExpectedTable[i].0) == ExpectedTable[i].1
  {
  }

  /**
   * The classifier is deliberately not injective: these are the preimages of
   * every class that more than one code shares; each remaining class has a
   * single canonical code.
   */
  lemma Preimages(code: Code)
    ensures CodeToHttp(code) == 400 <==> code in {InvalidArgument, FailedPrecondition, OutOfRange}
    ensures CodeToHttp(code) == 409 <==> code in {AlreadyExists, Aborted}
    ensures CodeToHttp(code) == 500 <==> code in {Unknown, Internal, DataLoss} || !IsCanonical(code)
    ensures CodeToHttp(code) == 499 <==> code == Canceled
    ensures CodeToHttp(code) == 504 <==> code == DeadlineExceeded
    ensures CodeToHttp(code) == 404 <==> code == NotFound
    ensures CodeToHttp(code) == 403 <==> code == PermissionDenied
    ensures CodeToHttp(code) == 429 <==> code == ResourceExhausted
    ensures CodeToHttp(code) == 501 <==> code == Unimplemented
    ensures CodeToHttp(code) == 503 <==> code == Unavailable
    ensures CodeToHttp(code) == 401 <==> code == Unauthenticated
  {
  }
}
