/**
 * `go_handle_upload` and `go_get_signed_url_for`: the user's `state` string
 * decides whether an upload URL is signed, for which bucket, or which fixed
 * message the request is rejected with.
 *
 * The S3 `getSignedUrl` call is a `Signer` parameter; the URL it returns is
 * an opaque `SignedRequest`. A JavaScript promise is modelled by how it ends:
 * resolved with an upload record, rejected with a reason, or never settled.
 */
module Upload {
  import opened Wrappers

  /** Bucket for uploads of users in state `ready`. */
  const PublicBucket: string := "gifs.radblock.xyz"
  /** Bucket for uploads of users in state `pending`. */
  const PendingBucket: string := "radblock-pending-gifs"

  const GifContentType: string := "image/gif"
  const PublicRead: string := "public-read"

  // The values of `user.state` that the dispatch switch names.
  const Ready: string := "ready"
  const Pending: string := "pending"
  const RateLimited: string := "rate-limited"
  const Banned: string := "banned"

  const RateLimitedMessage: string := "you already uploaded a gif today."
  const BannedMessage: string := "you are banned."

  /** The parameters of the `putObject` request whose URL S3 is asked to sign. */
  datatype PutObjectParams = PutObjectParams(bucket: string, key: string, contentType: string, acl: string)

  /** A signed upload URL; what it contains is S3's concern. */
  datatype SignedRequest = SignedRequest(url: string)

  /** What the `getSignedUrl` callback receives: the signed URL or an error. */
  datatype Signing = Signed(request: SignedRequest) | SignError(error: string)

  /** S3's `getSignedUrl('putObject', ...)`. */
  type Signer = PutObjectParams -> Signing

  /** The record `{signed_request, bucket, key}` an accepted upload resolves with. */
  datatype UploadRecord = UploadRecord(signedRequest: SignedRequest, bucket: string, key: string)

  /** How a promise ends: resolved with an upload record, rejected with a reason, or never. */
  datatype Outcome = Upload(record: UploadRecord) | Reject(reason: string) | NoOutcome

  /** The bucket the dispatch signs for in `state`, if it signs at all. */
  function BucketFor(state: string): (b: Option<string>)
    ensures state == Ready ==> b == Some(PublicBucket)
    ensures state == Pending ==> b == Some(PendingBucket)
    ensures b.Some? <==> state == Ready || state == Pending
  {
    if state == Ready then Some(PublicBucket)
    else if state == Pending then Some(PendingBucket)
    else None
  }

  /** The parameters every signing request carries: a gif, publicly readable. */
  function PutParams(bucket: string, key: string): PutObjectParams {
    PutObjectParams(bucket, key, GifContentType, PublicRead)
  }

  /**
   * `go_get_signed_url_for(bucket, key)`: always settles; resolves with the
   * signed URL for exactly this bucket and key, or rejects with S3's error.
   */
  function GetSignedUrlFor(bucket: string, key: string, sign: Signer): (r: Outcome)
    ensures r != NoOutcome
    ensures r.Upload? <==> sign(PutParams(bucket, key)).Signed?
    ensures r.Upload? ==>
      r.record.bucket == bucket && r.record.key == key
      && sign(PutParams(bucket, key)) == Signed(r.record.signedRequest)
    ensures r.Reject? ==> sign(PutParams(bucket, key)) == SignError(r.reason)
  {
    match sign(PutParams(bucket, key))
    case Signed(request) => Upload(UploadRecord(request, bucket, key))
    case SignError(error) => Reject(error)
  }

  /**
   * The promise `go_handle_upload` returns. On `ready` and `pending` the
   * signing promise is chained with `.then(resolve)` only, so an S3 error
   * leaves the returned promise unsettled; a state the switch does not name
   * (such as `to-pend`) falls through it and settles nothing either.
   */
  function UploadOutcome(state: string, key: string, sign: Signer): (r: Outcome)
    ensures r.Upload? <==> BucketFor(state).Some? && sign(PutParams(BucketFor(state).value, key)).Signed?
    ensures r.Upload? ==>
      Some(r.record.bucket) == BucketFor(state) && r.record.key == key
      && sign(PutParams(r.record.bucket, key)) == Signed(r.record.signedRequest)
    ensures r.Reject? <==> state == RateLimited || state == Banned
    ensures state == RateLimited ==> r == Reject(RateLimitedMessage)
    ensures state == Banned ==> r == Reject(BannedMessage)
    ensures state !in {Ready, Pending, RateLimited, Banned} ==> r == NoOutcome
  {
    if state == Ready then
      match GetSignedUrlFor(PublicBucket, key, sign)
      case Upload(record) => Upload(record)
      case _ => NoOutcome
    else if state == Pending then
      match GetSignedUrlFor(PendingBucket, key, sign)
      case Upload(record) => Upload(record)
      case _ => NoOutcome
    else if state == RateLimited then
      Reject(RateLimitedMessage)
    else if state == Banned then
      Reject(BannedMessage)
    else
      NoOutcome
  }

  /**
   * The dispatch asks S3 for at most one URL, for the state's bucket and the
   * given key: two signers that agree on that request give the same outcome,
   * and in every other state the signer is not consulted at all.
   */
  lemma SignsOnlyForItsBucket(state: string, key: string, sign1: Signer, sign2: Signer)
    requires BucketFor(state).Some? ==>
      sign1(PutParams(BucketFor(state).value, key)) == sign2(PutParams(BucketFor(state).value, key))
    ensures UploadOutcome(state, key, sign1) == UploadOutcome(state, key, sign2)
  {
  }

  /** A rejection does not depend on the key either: its message is fixed by the state. */
  lemma RejectionIgnoresKey(state: string, key1: string, key2: string, sign: Signer)
    requires UploadOutcome(state, key1, sign).Reject?
    ensures UploadOutcome(state, key1, sign) == UploadOutcome(state, key2, sign)
  {
  }
}
