# Serverless handlers of a social-video app, modelled in Dafny

The system here is a set of independent request handlers for a social-video
app. This project models the decision logic inside them. The calls to the
backing services are replaced by inputs to the model: the language model,
the payments backend, the S3 signing library, the identity service and the
databases. The handlers modelled are:

- **Caption moderation** (`Moderation`, `VideoStore.VideoCollection.ModerateVideo`).
  The language model's reply is lower-cased and searched for "blocked", then
  "sensitive"; anything else counts as "safe". An empty caption gives "safe"
  without any call to the classifier. A failed call gives "error".
- **Visibility job** (`Visibility`, `VideoStore.VideoCollection.UpdateVideoVisibility`).
  This job runs on a schedule. It takes every video whose moderation status
  is "safe" and sets its visibility level, status and trending flag from its
  diamond count, using a four-step ladder. The writes go out as one batch.
- **Payment intents** (`Payments`). Five request fields are checked for
  truthiness. Then one creation request goes to the backend, and the
  response carries only the client secret.
- **Signed upload URLs** (`SignedUrl`). A fixed chain of guards runs first.
  Then the handler builds the object key `uploads/<user>/<now>_<filename>`
  and the pre-signed PUT request: ACL `public-read`, 300 seconds, and the
  endpoint `https://s3.<region>.wasabisys.com`.
- **Asset URL recording** (`PostAsset`). A fixed chain of guards runs first.
  Then the handler builds the CDN URL, maps the asset type to a column, and
  updates the `posts` table filtered on both the post id and the caller as
  owner.
- **Referral redirects** (`Invite`). If the link names a referrer, one click
  record is appended to the log, and a failed insert is ignored. A 302
  redirect (section 15.4.3 of RFC 9110) is always returned. Its destination
  depends on the user agent: the Play Store, the App Store or the fallback
  site.

External services become parameters. The classifier, the payments backend
and the signer are total functions that return `Option` or `Result`. The
outcome of `createClient` followed by `auth.getUser()` is an `Auth` value. Environment settings are
`Option<string>` values, and `Date.now()` is a `nat`. The outcomes of the
batch commit, the click insert and the database update are a `bool` or an
`Option` error. A JavaScript field counts as "truthy" when it is present
and non-empty (for `amount`: present and non-zero).

The stateful parts are classes, each over one collection:
- `VideoCollection.docs` is a `seq<Video>`, where a document reference is a
  position.
- `PostsTable.rows` is a `map` from post id to row.
- `ReferralLog.clicks` is an append-only `seq<Click>`.

Each class method states the whole new state in terms of the old state and
of the pure functions that specify it.

Three points where the model follows the code exactly:
- A click is logged only when `referred_by` is present and non-empty, not on
  every request (supabase/functions/invite-handler/index.ts:11).
- "Missing" means falsy, so an amount of 0 or an empty string is rejected
  like an absent field (functions/index.js:123).
- In the asset recorder, a missing field is rejected (400) before
  authentication. An invalid `assetType` is rejected (400) only after the
  authentication check (401) and the CDN hostname check (500)
  (supabase/functions/record-post-asset/index.ts:15-68).

## Model

| member | source | states |
|---|---|---|
| `Text.Lower` | functions/index.js:37 | ASCII `toLowerCase`: same length, each character lower-cased position by position, and no upper-case ASCII letter left |
| `Text.Contains` | functions/index.js:40-41 | `includes`: true exactly when the pattern is a prefix of some suffix of the text, which needs the pattern to be no longer than the text |
| `Text.ContainsLower` | functions/index.js:37-40 | an occurrence of a word in the reply is an occurrence of its lower-cased form in the lower-cased reply, so matching after `toLowerCase` ignores letter case |
| `Text.TakeUntil` | supabase/functions/invite-handler/index.ts:26 | the result is a prefix of the input with no separator in it, and it is either the whole input or ends just before the first separator |
| `Text.NatToString` | supabase/functions/create-signed-url/index.ts:72 | the rendering of the timestamp is a non-empty string of decimal digits with no leading zero (it starts with '0' only for 0) |
| `Text.DecimalRoundTrip` | supabase/functions/create-signed-url/index.ts:72 | reading the digits back gives the original number (round trip) |
| `Text.NatToStringInjective` | supabase/functions/create-signed-url/index.ts:72 | different timestamps render differently |
| `Text.SplitAtFirst` | supabase/functions/create-signed-url/index.ts:72 | `a + sep + b` splits uniquely at its first `sep` when `a` holds none |
| `Moderation.Classify` | functions/index.js:37-42 | the result is one of blocked/sensitive/safe; "blocked" iff the lower-cased reply contains "blocked" (also when "sensitive" appears); "sensitive" iff it contains "sensitive" but not "blocked"; "safe" iff it contains neither |
| `Moderation.ClassifyBlockedAnyCase` | functions/index.js:37-40 | "blocked" in any letter case anywhere in the reply gives "blocked" |
| `Moderation.ClassifySensitiveAnyCase` | functions/index.js:37-41 | "sensitive" in any letter case, with no "blocked", gives "sensitive" |
| `Moderation.ModerationDecision` | functions/index.js:100-114 | absent or empty caption: status "safe" and the classifier is not called; otherwise the caption is sent to the classifier, and the status is "error" if it fails, else the parse of its reply; the status is always one of the four values |
| `VideoStore.VideoCollection.ModerateVideo` | functions/index.js:90-115 | an event without data changes nothing; otherwise only the created record's `moderationStatus` is written, with the decision's status, and the text sent to the classifier is returned |
| `Visibility.Ladder` | functions/index.js:62-79 | level in 0..3; level 3 iff diamonds >= 5, 2 iff 3..4, 1 iff 1..2; "active" iff diamonds >= 1, "hidden" otherwise; trending iff level 3 |
| `Visibility.LadderMonotone` | functions/index.js:65-74 | more diamonds never give a lower level, never turn trending off, and never turn "active" back to "hidden" |
| `Visibility.Refresh` | functions/index.js:50-80 | a record that is not "safe" is unchanged; a "safe" record gets exactly the ladder's three fields; caption, moderation status and diamonds never change |
| `Visibility.Refreshed` | functions/index.js:45-88 | same length; records that are not "safe" are unchanged; each "safe" record carries the ladder's tier for its diamonds |
| `Visibility.RefreshedIdempotent` | functions/index.js:50-80 | running the job twice gives the same collection as running it once |
| `Visibility.RefreshedWithoutEligible` | functions/index.js:53-56 | with no "safe" record the run is a no-op |
| `Visibility.EligibleFrom` | functions/index.js:48-51 | the snapshot holds exactly the positions of the "safe" records, strictly increasing |
| `Visibility.Query` | functions/index.js:48-51 | the `where moderationStatus == "safe"` query returns every "safe" record and nothing else, each once |
| `Visibility.BuildBatch` | functions/index.js:58-81 | the `forEach` loop queues one write per snapshot entry, in order, carrying the ladder's tier for that record's diamonds |
| `Visibility.WithTier` | functions/index.js:76-80 | `batch.update` of one record sets `visibilityLevel`, `status` and `trending` to the tier's values and keeps caption, moderation status and diamonds |
| `Visibility.ApplyWrite` | functions/index.js:76-80 | one queued write: the collection keeps its length, the targeted record gets the tier's three fields, and every other record is untouched |
| `Visibility.Commit` | functions/index.js:83 | `batch.commit()`: the collection keeps its length, and every record keeps its caption, moderation status and diamonds (so a "safe" record stays "safe") |
| `Visibility.CommitUntouched` | functions/index.js:83 | a record that no queued write targets keeps its value through the commit |
| `Visibility.CommitWritten` | functions/index.js:76-83 | with distinct targets, every targeted record ends with its write's three fields |
| `Visibility.CommitPlannedBatch` | functions/index.js:58-83 | committing the batch built from the query's snapshot gives exactly the refreshed collection |
| `VideoStore.VideoCollection.UpdateVideoVisibility` | functions/index.js:45-88 | after a run the collection is the refreshed collection; if the query or the commit fails, it is unchanged |
| `Payments.CreatePaymentIntent` | functions/index.js:118-143 | 400 "Missing required fields" with no creation call iff some field is falsy (amount 0, empty string, absent); otherwise exactly one creation with the amount, currency and metadata {badge_id, buyer_id, seller_id}, then 200 with only the client secret, or 500 with the backend's message |
| `SignedUrl.FileKey` | supabase/functions/create-signed-url/index.ts:72 | the key starts with `uploads/<user id>/`, ends with `_<filename>`, holds the decimal timestamp between the two, and its length is the sum of its parts |
| `SignedUrl.FileKeyInjective` | supabase/functions/create-signed-url/index.ts:72 | for one user, a different timestamp or a different filename gives a different key |
| `SignedUrl.FileKeyDeterminesUser` | supabase/functions/create-signed-url/index.ts:72 | for user ids without '/', equal keys mean the same user, timestamp and filename |
| `SignedUrl.FileKeyCollisionWithSlashInId` | supabase/functions/create-signed-url/index.ts:72 | if user ids may contain '/', two users can produce the same key |
| `SignedUrl.Endpoint` | supabase/functions/create-signed-url/index.ts:81 | the endpoint is `https://s3.` + region + `.wasabisys.com`, with the region recoverable from the middle |
| `SignedUrl.CreateSignedUrl` | supabase/functions/create-signed-url/index.ts:10-112 | fixed guard order 405, 400 (before authentication), 401 (before the storage settings), 500; when no client can be built, the server's bare 500 at the 401 position; nothing is signed unless every guard passes; the signing request carries the key, the content type, `public-read`, 300 seconds, the region's endpoint, the bucket and the credentials; 200 returns the signer's URL with the key that was signed, and a signer failure is 500 |
| `SignedUrl.IssuedKeyIsCallers` | supabase/functions/create-signed-url/index.ts:72-112 | a URL is only issued to an authenticated caller, and its key lies under that caller's `uploads/<id>/` |
| `PostAsset.CdnUrl` | supabase/functions/record-post-asset/index.ts:56 | the URL starts with `https://<hostname>/`, ends with the file key, and has exactly their combined length |
| `PostAsset.ColumnFor` | supabase/functions/record-post-asset/index.ts:58-68 | "video" selects `video_url`, "thumbnail" selects `thumbnail_url`, and every other value selects none |
| `PostAsset.SetColumn` | supabase/functions/record-post-asset/index.ts:58-62 | only the selected column is set; the other asset column, the owner and all other columns are kept |
| `PostAsset.Prepare` | supabase/functions/record-post-asset/index.ts:5-68 | fixed guard order: 405, then 400 for missing fields, then 401 (even with a missing hostname or a bad asset type), or the server's bare 500 when no client can be built, then 500 for a missing hostname (before the asset type), then 400 for a bad asset type; the one successful outcome is the plan for the caller's post id, column and CDN URL |
| `PostAsset.FilteredUpdate` | supabase/functions/record-post-asset/index.ts:74-79 | the keys are unchanged and other rows are untouched; if the caller does not own that id the table is unchanged and nothing is selected; otherwise that one row gets the column set and is the one row selected |
| `PostAsset.PostsTable.RecordPostAsset` | supabase/functions/record-post-asset/index.ts:5-104 | every guard failure returns its response and leaves the table unchanged; a database error gives 500 and no change; a missing post and a post owned by someone else give the same 404 response and no change; otherwise only that row's selected column changes, and the response is 200 with the CDN URL and the updated row |
| `Invite.IsAndroid` | supabase/functions/invite-handler/index.ts:42 | `/android/i`: a match iff some seven-character window of the user agent lower-cases to "android", so every letter-case spelling matches and nothing else does |
| `Invite.IsIos` | supabase/functions/invite-handler/index.ts:44 | `/iPad\|iPhone\|iPod/`: a match iff "iPad", "iPhone" or "iPod" starts at some position of the user agent, case-sensitively |
| `Invite.Destination` | supabase/functions/invite-handler/index.ts:40-49 | Play Store iff "android" in any case; App Store iff not android and "iPad"/"iPhone"/"iPod" appears (case-sensitive); the fallback otherwise, including an absent user agent |
| `Invite.AndroidAnyCase` | supabase/functions/invite-handler/index.ts:41-43 | "android" in any letter case goes to the Play Store, even when an iOS token is present too |
| `Invite.ClientIp` | supabase/functions/invite-handler/index.ts:26 | absent iff the header is absent; otherwise the untrimmed text before the first comma, or the whole value if there is no comma |
| `Invite.ClientIpFirstHop` | supabase/functions/invite-handler/index.ts:26 | for `first,rest` with no comma in `first`, the address is exactly `first` |
| `Invite.ReferralLog.HandleInvite` | supabase/functions/invite-handler/index.ts:4-50 | the response is always 302 to the user agent's destination, whatever the referral or the logging outcome; exactly one click {referral_id, ip_address, user_agent} is appended when the referrer is present and non-empty and the insert succeeds; otherwise the log is unchanged |

## Left out

- The services themselves are not modelled. That covers the language model, the payments API, the S3 client and SigV4 signing, the identity service, and the two databases. A signed URL is an opaque string returned by the signer parameter.
- The `classifyCaption` prompt, model name and temperature are left out. They do not affect the parse.
- CORS handling, `console` logging, the `serve`/`onRequest`/`onSchedule` plumbing, the ten-minute schedule and async scheduling are left out. None of them is decision logic.
- Atomicity of `batch.commit()` under concurrent writers is not modelled. A commit here either applies every queued write or none (`commitOk`).
- Moderation.Classify: lower-cases ASCII letters only. JavaScript's `toLowerCase` is Unicode-aware, so a reply like `"BLOC\u212AED"` (with the Kelvin sign U+212A) would read as "blocked" there but not here. `/android/i` in `Invite.Destination` is exact, because a non-Unicode case-insensitive regular expression never matches a non-ASCII character to an ASCII one.
- The `includes` calls and the regular expressions are modelled as plain substring search.
- Request fields are strings (and `amount` an integer) or absent. Other JSON values are not modelled: numbers where strings are expected, `false`. Neither are invalid JSON bodies or a missing body, which make `req.json()` or the destructuring throw, giving an unhandled error or a 500.
- In the two authenticated handlers, `createClient` runs outside any `try` (supabase/functions/record-post-asset/index.ts:22-32, supabase/functions/create-signed-url/index.ts:32-40). An empty service URL or key makes it throw, so the caller gets the server's generic 500, not a 401. The model has this as `Auth.ClientFailed` and the response body `Unhandled`. The exact text and headers of that generic response are not modelled. Row-level security on `posts` beyond the explicit owner filter is not modelled.
- VideoStore.VideoCollection.ModerateVideo: the write of the status is assumed to succeed. In the source, a failed write of the classifier's result falls into the `catch` and writes "error" instead, and a failed write of "safe" for an empty caption is unhandled.
- `diamonds` is an integer. Other stored values are not modelled. The ladder's `>=` converts them to numbers: an absent value, `null` or a non-numeric string such as "abc" lands on level 0, `true` lands on level 1, and a numeric string lands on its number's level (functions/index.js:65-71).
- The `Location` of a redirect is the URL handed to `Response.redirect`. The URL serialisation applied there (it writes `https://brosisus.com` as `https://brosisus.com/`) is not modelled.
- The `posts` table is keyed by post id, so the update matches at most one row; a table with duplicate ids is not modelled.
