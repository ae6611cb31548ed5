/**
 * The `/submit` path after the user has been found: `randomize_filename`
 * writes a fresh storage key into the user object, then `go_handle_upload`
 * dispatches on the user's state, calling the `go_rate_limit` and
 * `go_charge_card` hooks on the accepting branches.
 *
 * The source signs the URL for `user.gif.gif` (`go_handle_upload` passes
 * `user.gif`, and `go_get_signed_url_for` reads `.gif` off its argument),
 * never for the `gif_key` that `randomize_filename` has just written. So the
 * key is an explicit parameter of `HandleUpload`; `SubmitAsWritten` passes
 * whatever `user.gif.gif` is, `Submit` passes `gif_key`.
 */
module Submission {
  import opened Wrappers
  import opened Keys
  import opened Upload

  /** The user object the handlers pass along; only the fields they touch. */
  class User {
    var state: string
    var filename: string
    /** Absent until `randomize_filename` assigns it. */
    var gifKey: Option<string>
  }

  /** `randomize_filename`: assigns a new `gif_key` in place and returns the same object. */
  method RandomizeFilename(user: User, rand: RandomStream) returns (r: User)
    modifies user
    ensures r == user
    ensures user.gifKey == Some(RandomizedKey(old(user.filename), rand))
    ensures user.state == old(user.state) && user.filename == old(user.filename)
  {
    user.gifKey := Some(RandomizedKey(user.filename, rand));
    r := user;
  }

  /** `go_rate_limit`: a hook with no effect yet; resolves with the same user. */
  method RateLimit(user: User) returns (r: User)
    ensures r == user && r.state == user.state && r.gifKey == user.gifKey
  {
    r := user;
  }

  /** `go_charge_card`: a hook with no effect yet; resolves with the same user. */
  method ChargeCard(user: User) returns (r: User)
    ensures r == user && r.state == user.state && r.gifKey == user.gifKey
  {
    r := user;
  }

  /**
   * `go_handle_upload`, signing for `key`. It may change nothing (it has no
   * modifies clause): the hooks' promises are discarded and the user record
   * is left as it was.
   */
  method HandleUpload(user: User, key: string, sign: Signer) returns (r: Outcome)
    ensures r == UploadOutcome(user.state, key, sign)
  {
    if user.state == Ready {
      var limited := RateLimit(user);
      var charged := ChargeCard(user);
      r := match GetSignedUrlFor(PublicBucket, key, sign)
        case Upload(record) => Upload(record)
        case _ => NoOutcome;
    } else if user.state == Pending {
      var limited := RateLimit(user);
      var charged := ChargeCard(user);
      r := match GetSignedUrlFor(PendingBucket, key, sign)
        case Upload(record) => Upload(record)
        case _ => NoOutcome;
    } else if user.state == RateLimited {
      r := Reject(RateLimitedMessage);
    } else if user.state == Banned {
      r := Reject(BannedMessage);
    } else {
      r := NoOutcome;
    }
  }

  /** What the source's `/submit` pipeline yields: the URL is signed for `gifOfGif`, whatever `user.gif.gif` holds. */
  function SubmitOutcomeAsWritten(state: string, gifOfGif: string, sign: Signer): (r: Outcome)
    ensures r.Upload? ==> r.record.key == gifOfGif
  {
    UploadOutcome(state, gifOfGif, sign)
  }

  /**
   * With `user.gif.gif` holding the bare file name, a `ready` upload is
   * signed for `cat.gif` itself: a key with no random directory, so not the
   * `gif_key` just assigned, and one every other upload of that name shares.
   */
  lemma AsWrittenSignsAnotherKey()
    ensures var sign: Signer := p => Signed(SignedRequest("url"));
      var rand: RandomStream := i => 0;
      var r := SubmitOutcomeAsWritten(Ready, "cat.gif", sign);
      r.Upload? && r.record.key != RandomizedKey("cat.gif", rand) && AfterFirstSlash(r.record.key) == None
  {
    var sign: Signer := p => Signed(SignedRequest("url"));
    var r := SubmitOutcomeAsWritten(Ready, "cat.gif", sign);
    assert r.record.key == "cat.gif";
    assert '/' !in "cat.gif";
  }

  /** The `/submit` pipeline as intended: the URL is signed for the key `randomize_filename` built. */
  function SubmitOutcome(state: string, filename: string, rand: RandomStream, sign: Signer): (r: Outcome)
    ensures r.Upload? ==>
      r.record.key == RandomizedKey(filename, rand) && KeyShape(r.record.key, filename)
      && AfterFirstSlash(r.record.key) == Some(filename)
  {
    FileNameRecoverable(filename, rand);
    UploadOutcome(state, RandomizedKey(filename, rand), sign)
  }

  /** `/submit` after the user is found, as written: the new `gif_key` is stored but not signed for. */
  method SubmitAsWritten(user: User, gifOfGif: string, rand: RandomStream, sign: Signer) returns (r: Outcome)
    modifies user
    ensures user.gifKey == Some(RandomizedKey(old(user.filename), rand))
    ensures user.state == old(user.state) && user.filename == old(user.filename)
    ensures r == SubmitOutcomeAsWritten(old(user.state), gifOfGif, sign)
  {
    var u := RandomizeFilename(user, rand);
    r := HandleUpload(u, gifOfGif, sign);
  }

  /** `/submit` after the user is found, signing for the `gif_key` just assigned. */
  method Submit(user: User, rand: RandomStream, sign: Signer) returns (r: Outcome)
    modifies user
    ensures user.gifKey == Some(RandomizedKey(old(user.filename), rand))
    ensures user.state == old(user.state) && user.filename == old(user.filename)
    ensures r == SubmitOutcome(old(user.state), old(user.filename), rand, sign)
  {
    var u := RandomizeFilename(user, rand);
    r := HandleUpload(u, u.gifKey.value, sign);
  }
}
