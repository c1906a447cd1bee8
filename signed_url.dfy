/** supabase/functions/create-signed-url/index.ts: the guard chain, the
    object key, and the pre-signed PUT request handed to the S3 client.
    `Date.now()` is the parameter `now`; the signing library is the
    parameter `signer`, whose URL is opaque. */
module SignedUrl {
  import opened Wrappers
  import opened Text
  import opened Requests

  datatype UploadRequest = UploadRequest(filename: Option<string>, contentType: Option<string>)

  /** The four storage settings read from the environment. */
  datatype WasabiEnv = WasabiEnv(
    accessKeyId: Option<string>,
    secretAccessKey: Option<string>,
    region: Option<string>,
    bucket: Option<string>)

  /** The client configuration and `PutObjectCommand` the URL is signed for. */
  datatype PresignRequest = PresignRequest(
    endpoint: string,
    region: string,
    accessKeyId: string,
    secretAccessKey: string,
    bucket: string,
    key: string,
    contentType: string,
    acl: string,
    expiresIn: nat)

  datatype Body =
    | ErrorBody(error: string, details: Option<string>)
    | Issued(signedUrl: string, fileKey: string)
    /** The server's own answer to an exception the handler does not catch. */
    | Unhandled

  datatype Response = Response(status: int, body: Body)

  /** The response and the signing request made, if any. */
  datatype Outcome = Outcome(response: Response, signing: Option<PresignRequest>)

  const MISSING_FIELDS := "Missing filename or contentType"
  const CONFIG_MISSING := "Server configuration error: Wasabi credentials missing"
  const SIGNING_FAILED := "Failed to generate signed URL"
  const PUBLIC_READ := "public-read"
  const EXPIRES_IN: nat := 300

  const UPLOADS := "uploads/"

  /** `uploads/<user id>/<now>_<filename>`. */
  function FileKey(userId: string, now: nat, filename: string): (key: string)
    ensures UPLOADS + userId + "/" <= key
    ensures |key| == |UPLOADS| + |userId| + 1 + |NatToString(now)| + 1 + |filename|
    ensures key[|key| - |filename| - 1..] == "_" + filename
    ensures key[|UPLOADS| + |userId| + 1..|key| - |filename| - 1] == NatToString(now)
  {
    UPLOADS + userId + "/" + NatToString(now) + "_" + filename
  }

  /** What a key holds after the fixed prefix and the user's directory. */
  lemma FileKeyShape(userId: string, now: nat, filename: string)
    ensures FileKey(userId, now, filename) == UPLOADS + userId + "/" + (NatToString(now) + "_" + filename)
  {
  }

  /** For one user, the key determines the timestamp and the filename: two
      uploads with a different timestamp or a different filename never
      share a key. */
  lemma FileKeyInjective(userId: string, now1: nat, filename1: string, now2: nat, filename2: string)
    requires FileKey(userId, now1, filename1) == FileKey(userId, now2, filename2)
    ensures now1 == now2 && filename1 == filename2
  {
    var prefix := UPLOADS + userId + "/";
    FileKeyShape(userId, now1, filename1);
    FileKeyShape(userId, now2, filename2);
    var rest1 := NatToString(now1) + "_" + filename1;
    var rest2 := NatToString(now2) + "_" + filename2;
    assert rest1 == FileKey(userId, now1, filename1)[|prefix|..];
    assert rest2 == FileKey(userId, now2, filename2)[|prefix|..];
    assert '_' !in NatToString(now1) && '_' !in NatToString(now2);
    SplitAtFirst(NatToString(now1), filename1, NatToString(now2), filename2, '_');
    NatToStringInjective(now1, now2);
  }

  /** Keys of users whose ids hold no '/' (the identity service issues
      UUIDs) never collide across users either. */
  lemma FileKeyDeterminesUser(user1: string, now1: nat, filename1: string,
                              user2: string, now2: nat, filename2: string)
    requires '/' !in user1 && '/' !in user2
    requires FileKey(user1, now1, filename1) == FileKey(user2, now2, filename2)
    ensures user1 == user2 && now1 == now2 && filename1 == filename2
  {
    var key := FileKey(user1, now1, filename1);
    var rest1 := NatToString(now1) + "_" + filename1;
    var rest2 := NatToString(now2) + "_" + filename2;
    assert key == UPLOADS + (user1 + "/" + rest1);
    assert key == UPLOADS + (user2 + "/" + rest2);
    assert user1 + "/" + rest1 == key[|UPLOADS|..] == user2 + "/" + rest2;
    SplitAtFirst(user1, rest1, user2, rest2, '/');
    FileKeyInjective(user1, now1, filename1, now2, filename2);
  }

  /** Without that restriction two users can collide. */
  lemma FileKeyCollisionWithSlashInId()
    ensures FileKey("a", 1, "b/2_c") == FileKey("a/1_b", 2, "c")
  {
    assert NatToString(1) == "1";
    assert NatToString(2) == "2";
  }

  /** The S3 endpoint of a Wasabi region. */
  function Endpoint(region: string): (url: string)
    ensures |url| == |"https://s3."| + |region| + |".wasabisys.com"|
    ensures "https://s3." <= url
    ensures url[|url| - |".wasabisys.com"|..] == ".wasabisys.com"
    ensures url[|"https://s3."|..|url| - |".wasabisys.com"|] == region
  {
    "https://s3." + region + ".wasabisys.com"
  }

  predicate Configured(env: WasabiEnv) {
    && TruthyString(env.accessKeyId)
    && TruthyString(env.secretAccessKey)
    && TruthyString(env.region)
    && TruthyString(env.bucket)
  }

  /** The handler. Guards run in a fixed order: request method (405), body fields
      (400), caller (401, or the server's bare 500 when no client could be
      built), storage settings (500); only then is a URL
      signed, and a signing failure is a 500. */
  function CreateSignedUrl(
    httpMethod: string, body: UploadRequest, auth: Auth, env: WasabiEnv, now: nat,
    signer: PresignRequest -> Result<string, string>): (out: Outcome)
    ensures httpMethod != POST ==>
      out == Outcome(Response(405, ErrorBody(METHOD_NOT_ALLOWED, None)), None)
    ensures httpMethod == POST && !(TruthyString(body.filename) && TruthyString(body.contentType)) ==>
      out == Outcome(Response(400, ErrorBody(MISSING_FIELDS, None)), None)
    ensures (httpMethod == POST && TruthyString(body.filename) && TruthyString(body.contentType)
             && auth.Rejected?) ==>
      out == Outcome(Response(401, ErrorBody(UNAUTHORIZED, auth.message)), None)
    ensures (httpMethod == POST && TruthyString(body.filename) && TruthyString(body.contentType)
             && auth.ClientFailed?) ==>
      out == Outcome(Response(500, Unhandled), None)
    ensures (httpMethod == POST && TruthyString(body.filename) && TruthyString(body.contentType)
             && auth.Authenticated? && !Configured(env)) ==>
      out == Outcome(Response(500, ErrorBody(CONFIG_MISSING, None)), None)
    ensures out.signing.Some? <==>
      httpMethod == POST && TruthyString(body.filename) && TruthyString(body.contentType)
      && auth.Authenticated? && Configured(env)
    ensures out.signing.Some? ==>
      var p := out.signing.value;
      && p.key == FileKey(auth.userId, now, body.filename.value)
      && p.contentType == body.contentType.value
      && p.acl == PUBLIC_READ
      && p.expiresIn == EXPIRES_IN
      && p.region == env.region.value
      && p.endpoint == Endpoint(env.region.value)
      && p.bucket == env.bucket.value
      && p.accessKeyId == env.accessKeyId.value
      && p.secretAccessKey == env.secretAccessKey.value
    ensures out.signing.Some? ==>
      match signer(out.signing.value)
      case Success(url) => out.response == Response(200, Issued(url, out.signing.value.key))
      case Failure(message) => out.response == Response(500, ErrorBody(SIGNING_FAILED, Some(message)))
  {
    if httpMethod != POST then
      Outcome(Response(405, ErrorBody(METHOD_NOT_ALLOWED, None)), None)
    else if !TruthyString(body.filename) || !TruthyString(body.contentType) then
      Outcome(Response(400, ErrorBody(MISSING_FIELDS, None)), None)
    else if auth.ClientFailed? then
      Outcome(Response(500, Unhandled), None)
    else if auth.Rejected? then
      Outcome(Response(401, ErrorBody(UNAUTHORIZED, auth.message)), None)
    else if !Configured(env) then
      Outcome(Response(500, ErrorBody(CONFIG_MISSING, None)), None)
    else
      var fileKey := FileKey(auth.userId, now, body.filename.value);
      var region := env.region.value;
      var request := PresignRequest(
        Endpoint(region), region, env.accessKeyId.value, env.secretAccessKey.value,
        env.bucket.value, fileKey, body.contentType.value, PUBLIC_READ, EXPIRES_IN);
      match signer(request)
      case Success(url) => Outcome(Response(200, Issued(url, fileKey)), Some(request))
      case Failure(message) => Outcome(Response(500, ErrorBody(SIGNING_FAILED, Some(message))), Some(request))
  }

  /** A successful response carries the key that was signed, and that key
      lies in the caller's own upload directory. */
  lemma IssuedKeyIsCallers(
    httpMethod: string, body: UploadRequest, auth: Auth, env: WasabiEnv, now: nat,
    signer: PresignRequest -> Result<string, string>)
    requires CreateSignedUrl(httpMethod, body, auth, env, now, signer).response.body.Issued?
    ensures auth.Authenticated?
    ensures UPLOADS + auth.userId + "/" <= CreateSignedUrl(httpMethod, body, auth, env, now, signer).response.body.fileKey
  {
  }
}
