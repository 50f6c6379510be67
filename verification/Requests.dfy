/** How a reply is classified, and the loop that sends a request again. */
module Requests {

  import opened StorageErrors

  function ClassifyS3Error(httpStatus: int, s3Code: string): ErrorKind {
    if s3Code == "NoSuchKey" then NoSuchKey
    else if s3Code == "NoSuchBucket" then NoSuchBucket
    else if s3Code == "AccessDenied" then AccessDenied
    else if s3Code in ["InvalidAccessKeyId", "SignatureDoesNotMatch", "TokenRefreshRequired", "ExpiredToken"]
    then InvalidCredentials
    else if s3Code == "SlowDown" || s3Code == "TooManyRequests" || httpStatus == 429 then Throttled
    else if s3Code == "PreconditionFailed" || httpStatus == 412 || httpStatus == 409 then Conflict
    else if s3Code == "RequestTimeout" then Network
    else if httpStatus == 403 then AccessDenied
    else if httpStatus == 404 then NoSuchKey
    else Http
  }

  /** What one send comes back with: no usable reply, or a status and the error code in its body, if any. */
  datatype Sent = NoReply(error: StorageError) | Reply(status: int, s3Code: string)
  {
    predicate Succeeds() {
      Reply? && 200 <= status < 300
    }

    function Error(): StorageError {
      if NoReply? then error else StorageError(ClassifyS3Error(status, s3Code), status)
    }

    /** Without a reply only a network failure is worth another try; a reply decides by its classification. */
    predicate Repeatable() {
      !Succeeds() && if NoReply? then error.kind == Network else Error().Retryable()
    }
  }

  datatype Result = Success(sent: Sent) | Failure(error: StorageError)

  function Attempts(idempotent: bool, maxRetries: int): nat {
    if idempotent && maxRetries > 1 then maxRetries else 1
  }

  const CANCELLED := StorageError(CancelledByUser, 0)

  /** `send(k)` is what the k-th attempt comes back with, `cancelled(k)` whether the flag is seen set in the pause
      before it. A request is sent again only while it is allowed to and the failure is repeatable: the result is
      that of the last send, or a cancellation during a pause. Create and Complete are not idempotent: they are sent
     once and report what came back, so no retry creates anything twice. */
  method SendWithRetry(send: nat -> Sent, cancelled: nat -> bool, idempotent: bool, maxRetries: int)
    returns (result: Result, sends: nat)
    ensures 1 <= sends <= Attempts(idempotent, maxRetries)
    ensures forall k :: 0 <= k < sends - 1 ==> send(k).Repeatable()
    ensures forall k :: 1 <= k < sends ==> !cancelled(k)
    ensures result.Success? <==> send(sends - 1).Succeeds()
    ensures result.Success? ==> result.sent == send(sends - 1)
    ensures result.Failure? && send(sends - 1).Repeatable() && sends < Attempts(idempotent, maxRetries)
            ==> result.error == CANCELLED && cancelled(sends)
    ensures result.Failure? && !(send(sends - 1).Repeatable() && sends < Attempts(idempotent, maxRetries))
            ==> result.error == send(sends - 1).Error()
    ensures !idempotent ==>
              sends == 1 && result == if send(0).Succeeds() then Success(send(0)) else Failure(send(0).Error())
  {
    var attempts := Attempts(idempotent, maxRetries);
    var attempt := 0;
    result := Failure(StorageError(NoError, 0));
    while attempt < attempts
      invariant 0 <= attempt <= attempts
      invariant forall k :: 0 <= k < attempt ==> send(k).Repeatable()
      invariant forall k :: 1 <= k < attempt ==> !cancelled(k)
      invariant attempt > 0 ==> result == Failure(send(attempt - 1).Error())
    {
      if attempt > 0 && cancelled(attempt) {
        return Failure(CANCELLED), attempt;
      }
      var sent := send(attempt);
      if sent.NoReply? {
        result := Failure(sent.error);
        if sent.error.kind != Network {
          return result, attempt + 1;
        }
      } else if 200 <= sent.status < 300 {
        return Success(sent), attempt + 1;
      } else {
        result := Failure(sent.Error());
        if !sent.Error().Retryable() {
          return result, attempt + 1;
        }
      }
      attempt := attempt + 1;
    }
    sends := attempts;
  }

  /** A reply is repeatable exactly if the service asks for it by code or status, or answers 5xx without any of the
      codes and without having been conclusive. */
  lemma RepeatableReplyIff(status: int, s3Code: string)
    ensures Reply(status, s3Code).Repeatable() <==>
              && !(200 <= status < 300)
              && s3Code !in ["NoSuchKey", "NoSuchBucket", "AccessDenied", "InvalidAccessKeyId", "SignatureDoesNotMatch",
                             "TokenRefreshRequired", "ExpiredToken"]
              && (s3Code in ["SlowDown", "TooManyRequests"] || status == 429
                  || (s3Code != "PreconditionFailed" && status != 412 && status != 409
                      && (s3Code == "RequestTimeout" || status >= 500)))
  {
    assert s3Code in ["NoSuchKey", "NoSuchBucket", "AccessDenied", "InvalidAccessKeyId", "SignatureDoesNotMatch",
                      "TokenRefreshRequired", "ExpiredToken"]
           <==> s3Code == "NoSuchKey" || s3Code == "NoSuchBucket" || s3Code == "AccessDenied"
                || s3Code in ["InvalidAccessKeyId", "SignatureDoesNotMatch", "TokenRefreshRequired", "ExpiredToken"];
  }
}
