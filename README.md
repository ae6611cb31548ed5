# radblock gimme: upload dispatch and storage keys

A verified model of the upload logic in `main.js` of the radblock gif
service. A user who submits a gif is dispatched on their `state`:

- `ready` users get a signed S3 upload URL for the public bucket `gifs.radblock.xyz`;
- `pending` users get one for `radblock-pending-gifs`;
- `rate-limited` and `banned` users are rejected with a fixed message;
- any other state, such as `to-pend`, gets no answer at all.

Before dispatch, the user object gets a storage key of the form
`xxxx-xxxx/<filename>`, built from two random alphanumeric segments.

Modules:

- `Wrappers`: `Option`.
- `Keys`: `gen_random_string` and the key layout written by `randomize_filename`.
  Randomness is a stream of draws, each an index into the 62-character alphabet.
- `Upload`: the dispatch of `go_handle_upload` as a function of the state, the key and the S3 signer.
  It also models the `{signed_request, bucket, key}` record of `go_get_signed_url_for`.
- `Submission`: the user object as a class, and `randomize_filename` updating it in place.
  It also holds the no-op `go_rate_limit` and `go_charge_card` hooks, and the `/submit` pipeline after the user has been found.

A JavaScript promise is modelled by how it ends, in `Upload.Outcome`:
resolved with an upload record (`Upload`), rejected with a reason (`Reject`),
or never settled (`NoOutcome`).

The model follows the code, which falls short of the service's intended account lifecycle:

- a `pending` user is signed for the pending bucket rather than refused;
- `to-pend` falls through the switch;
- nothing is rate-limited;
- an S3 signing error is dropped. The signing promise is chained with `.then(resolve)` only, so the outer promise never settles.

## Model

| member | source | states |
|---|---|---|
| Keys.AlphabetLength | main.js:189 | the alphabet has 62 characters, so a draw is an index in 0..61 |
| Keys.AlphabetIsAlphanumeric | main.js:189 | a character is in the alphabet iff it is `a`-`z`, `A`-`Z` or `0`-`9` |
| Keys.GenRandomString | main.js:188-194 | the result has exactly `length` characters, each from the alphabet, the i-th picked by the i-th draw |
| Keys.GenRandomStringReaches | main.js:190-193 | every alphanumeric string of length n is a possible result of `gen_random_string(n)` |
| Keys.RandomizedKey | main.js:206 | the key is `s1 + '-' + s2 + '/' + filename` with `s1`, `s2` four alphabet characters, so its length is `|filename| + 10` |
| Keys.KeyShapeComplete | main.js:206 | conversely, every string of that layout is a key `randomize_filename` can assign |
| Keys.FileNameRecoverable | main.js:206 | the first `/` of the key is at index 9 and what follows it is exactly the file name |
| Upload.BucketFor | main.js:76-87 | `ready` selects `gifs.radblock.xyz`, `pending` selects `radblock-pending-gifs`, no other state selects a bucket |
| Upload.GetSignedUrlFor | main.js:138-154 | always settles: resolves with `{signed_request, bucket, key}` for exactly the given bucket and key (gif, public-read), or rejects with S3's error |
| Upload.UploadOutcome | main.js:74-96 | uploads only in `ready`/`pending`, to that state's bucket with the key unchanged and only when S3 signs; rejects exactly `rate-limited` (`you already uploaded a gif today.`) and `banned` (`you are banned.`); any other state, or a signing error, gives no outcome |
| Upload.SignsOnlyForItsBucket | main.js:76-94 | the outcome depends on S3 only through the one URL for the state's bucket and the key; rejected and unknown states request no URL |
| Upload.RejectionIgnoresKey | main.js:89-93 | a rejection's message depends on the state alone |
| Submission.RandomizeFilename | main.js:205-208 | sets `gif_key` to a randomized key for the user's file name, changes no other field, returns the same object |
| Submission.RateLimit | main.js:117-122 | resolves with the same user and changes nothing |
| Submission.ChargeCard | main.js:124-129 | resolves with the same user and changes nothing |
| Submission.HandleUpload | main.js:74-96 | yields `UploadOutcome` for the user's state after calling the hooks on `ready` and `pending`; it has no modifies clause, so the user record is unchanged on every path |
| Submission.SubmitOutcomeAsWritten | main.js:80-86 | as written, an accepted upload is signed for `user.gif.gif`, not for `gif_key` |
| Submission.AsWrittenSignsAnotherKey | main.js:142-150 | a `ready` upload signed for `cat.gif` differs from the assigned `gif_key` and has no random directory |
| Submission.SubmitOutcome | main.js:40-42 | with the key `randomize_filename` assigned, an accepted upload's key has the `s1-s2/filename` layout and yields the file name after its first `/` |
| Submission.SubmitAsWritten | main.js:38-46 | `/submit` after lookup: stores a new `gif_key`, keeps state and file name, answers with the as-written outcome |
| Submission.Submit | main.js:38-46 | `/submit` after lookup, signing for the stored `gif_key`: answers with `SubmitOutcome` |

## Findings

| source | as written | input that shows it | evidently intended | confidence | as-written member | corrected member |
|---|---|---|---|---|---|---|
| main.js:80 | `go_handle_upload` passes `user.gif`, and `go_get_signed_url_for` signs `Key: user.gif.gif` (main.js:142, 150). `randomize_filename` wrote the key to `user.gif_key` (main.js:206), so that key is never used. | a `ready` user with file name `cat.gif` whose `user.gif.gif` is `cat.gif`: the URL is signed for `cat.gif`, not for the 17-character `gif_key` | sign the URL for `user.gif_key` | medium, not executed | Submission.SubmitOutcomeAsWritten | Submission.SubmitOutcome |

## Left out

- `crypto.js`: it wraps the external `scrypt` library, whose key derivation and verification are not visible, and its top-level demo call only logs.
- The `/submit` and `/verify` routes and their promise chaining (main.js:38-60): this is request binding. The `lambda-s3-authenticator` lookup is an external module, so the pipelines start from an already found user.
- `go_unpend`, `go_create_or_find_user`, `go_verify_user` (main.js:102-108, 163-186): these are stubs or comment-only bodies with no behaviour to model.
- `go_rate_limit`: the comment at main.js:110-116 promises a `rate-limited` status, but the body does nothing. Only the no-op is modelled.
- S3 `getSignedUrl`: an external service. It is a `Signer` parameter, and the URL it returns is opaque.
- `Math.random` floating point: replaced by a stream of draws in 0..61. This is the value `Math.floor(Math.random() * 62)` can take.
- Asynchrony: the hooks' promises are discarded by the source and modelled as plain calls. Interleaving with other requests is not modelled.
- JavaScript `undefined`: a missing `filename` would be concatenated as the text `undefined`. A missing `user.gif` would make the signing step throw. The model takes both as strings.
- The stray closing braces at main.js:137 and main.js:204 are syntax errors and are ignored.
