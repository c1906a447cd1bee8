/** supabase/functions/record-post-asset/index.ts: the guard chain, the
    CDN URL, the column chosen by the asset type, and the update of the
    `posts` table filtered on both the post id and the caller as owner.
    The table is a map from post id (its primary key) to the row. */
module PostAsset {
  import opened Wrappers
  import opened Requests

  datatype AssetRequest = AssetRequest(postId: Option<string>, fileKey: Option<string>, assetType: Option<string>)

  datatype Column = VideoUrl | ThumbnailUrl

  /** A row of `posts`: its owner, the two asset columns, and the columns
      this handler never writes. */
  datatype Post = Post(
    userId: string,
    videoUrl: Option<string>,
    thumbnailUrl: Option<string>,
    otherColumns: map<string, string>)

  datatype Body =
    | ErrorBody(error: string, details: Option<string>)
    | Recorded(message: string, cdnUrl: string, updatedPost: Post)
    /** The server's own answer to an exception the handler does not catch. */
    | Unhandled

  datatype Response = Response(status: int, body: Body)

  /** What the guards leave to do: set `column` of the caller's post to `cdnUrl`. */
  datatype Plan = Plan(postId: string, userId: string, column: Column, cdnUrl: string)

  const MISSING_FIELDS := "Missing postId, fileKey, or assetType"
  const CDN_MISSING := "Server configuration error: Bunny CDN hostname missing"
  const INVALID_ASSET_TYPE := "Invalid asset type. Must be \"video\" or \"thumbnail\"."
  const RECORD_FAILED := "Failed to record asset URL"
  const NOT_FOUND := "Post not found or unauthorized to update."
  const RECORDED := "Asset URL recorded successfully"

  /** `https://<hostname>/<fileKey>`. */
  function CdnUrl(hostname: string, fileKey: string): (url: string)
    ensures |url| == |"https://"| + |hostname| + 1 + |fileKey|
    ensures "https://" + hostname + "/" <= url
    ensures url[|url| - |fileKey|..] == fileKey
  {
    "https://" + hostname + "/" + fileKey
  }

  /** The column an asset type names; only the two exact names are valid. */
  function ColumnFor(assetType: string): (c: Option<Column>)
    ensures c == Some(VideoUrl) <==> assetType == "video"
    ensures c == Some(ThumbnailUrl) <==> assetType == "thumbnail"
    ensures c == None <==> assetType != "video" && assetType != "thumbnail"
  {
    if assetType == "video" then Some(VideoUrl)
    else if assetType == "thumbnail" then Some(ThumbnailUrl)
    else None
  }

  /** The row after the update: one column set, every other one kept. */
  function SetColumn(p: Post, column: Column, url: string): (r: Post)
    ensures r.userId == p.userId && r.otherColumns == p.otherColumns
    ensures column == VideoUrl ==> r.videoUrl == Some(url) && r.thumbnailUrl == p.thumbnailUrl
    ensures column == ThumbnailUrl ==> r.thumbnailUrl == Some(url) && r.videoUrl == p.videoUrl
  {
    match column
    case VideoUrl => p.(videoUrl := Some(url))
    case ThumbnailUrl => p.(thumbnailUrl := Some(url))
  }

  predicate Present(req: AssetRequest) {
    TruthyString(req.postId) && TruthyString(req.fileKey) && TruthyString(req.assetType)
  }

  /** The guards, in their fixed order: method (405), body fields (400),
      caller (401, or the server's bare 500 when no client could be built),
      CDN hostname (500), asset type (400). None of them
      touches the table. */
  function Prepare(httpMethod: string, req: AssetRequest, auth: Auth, hostname: Option<string>)
    : (r: Result<Plan, Response>)
    ensures httpMethod != POST ==> r == Failure(Response(405, ErrorBody(METHOD_NOT_ALLOWED, None)))
    ensures httpMethod == POST && !Present(req) ==>
      r == Failure(Response(400, ErrorBody(MISSING_FIELDS, None)))
    ensures (httpMethod == POST && Present(req) && auth.Rejected?) ==>
      r == Failure(Response(401, ErrorBody(UNAUTHORIZED, auth.message)))
    ensures (httpMethod == POST && Present(req) && auth.ClientFailed?) ==>
      r == Failure(Response(500, Unhandled))
    ensures (httpMethod == POST && Present(req) && auth.Authenticated? && !TruthyString(hostname)) ==>
      r == Failure(Response(500, ErrorBody(CDN_MISSING, None)))
    ensures (httpMethod == POST && Present(req) && auth.Authenticated? && TruthyString(hostname)
             && ColumnFor(req.assetType.value).None?) ==>
      r == Failure(Response(400, ErrorBody(INVALID_ASSET_TYPE, None)))
    ensures r.Success? <==>
      httpMethod == POST && Present(req) && auth.Authenticated? && TruthyString(hostname)
      && ColumnFor(req.assetType.value).Some?
    ensures r.Success? ==>
      r.value == Plan(req.postId.value, auth.userId, ColumnFor(req.assetType.value).value,
                      CdnUrl(hostname.value, req.fileKey.value))
  {
    if httpMethod != POST then
      Failure(Response(405, ErrorBody(METHOD_NOT_ALLOWED, None)))
    else if !Present(req) then
      Failure(Response(400, ErrorBody(MISSING_FIELDS, None)))
    else if auth.ClientFailed? then
      Failure(Response(500, Unhandled))
    else if auth.Rejected? then
      Failure(Response(401, ErrorBody(UNAUTHORIZED, auth.message)))
    else if !TruthyString(hostname) then
      Failure(Response(500, ErrorBody(CDN_MISSING, None)))
    else
      var cdnUrl := CdnUrl(hostname.value, req.fileKey.value);
      match ColumnFor(req.assetType.value)
      case None => Failure(Response(400, ErrorBody(INVALID_ASSET_TYPE, None)))
      case Some(column) => Success(Plan(req.postId.value, auth.userId, column, cdnUrl))
  }

  /** The caller owns an existing post with that id. */
  predicate Owns(rows: map<string, Post>, postId: string, userId: string) {
    postId in rows && rows[postId].userId == userId
  }

  /** `.update({column: url}).eq('id', postId).eq('user_id', caller).select()`:
      the new table and the rows the filter matched, after the update. */
  datatype Updated = Updated(rows: map<string, Post>, selected: seq<Post>)

  function FilteredUpdate(rows: map<string, Post>, plan: Plan): (u: Updated)
    ensures u.rows.Keys == rows.Keys
    ensures forall id :: id in rows && id != plan.postId ==> u.rows[id] == rows[id]
    ensures !Owns(rows, plan.postId, plan.userId) ==> u.rows == rows && u.selected == []
    ensures Owns(rows, plan.postId, plan.userId) ==>
      && u.rows == rows[plan.postId := SetColumn(rows[plan.postId], plan.column, plan.cdnUrl)]
      && u.selected == [u.rows[plan.postId]]
  {
    var rows' := map id | id in rows ::
      if id == plan.postId && rows[id].userId == plan.userId
      then SetColumn(rows[id], plan.column, plan.cdnUrl) else rows[id];
    Updated(rows', if Owns(rows, plan.postId, plan.userId) then [rows'[plan.postId]] else [])
  }

  class PostsTable {
    var rows: map<string, Post>

    constructor (initial: map<string, Post>)
      ensures rows == initial
    {
      rows := initial;
    }

    /** The handler. `hostname` is the CDN hostname setting; `dbError` is
        the database's error for the update, if it reports one. */
    method RecordPostAsset(httpMethod: string, req: AssetRequest, auth: Auth, hostname: Option<string>,
                           dbError: Option<string>)
      returns (resp: Response)
      modifies this
      ensures Prepare(httpMethod, req, auth, hostname).Failure? ==>
        resp == Prepare(httpMethod, req, auth, hostname).error && rows == old(rows)
      ensures Prepare(httpMethod, req, auth, hostname).Success? && dbError.Some? ==>
        resp == Response(500, ErrorBody(RECORD_FAILED, dbError)) && rows == old(rows)
      ensures (Prepare(httpMethod, req, auth, hostname).Success? && dbError.None? &&
               !Owns(old(rows), req.postId.value, auth.userId)) ==>
        resp == Response(404, ErrorBody(NOT_FOUND, None)) && rows == old(rows)
      ensures (Prepare(httpMethod, req, auth, hostname).Success? && dbError.None? &&
               Owns(old(rows), req.postId.value, auth.userId)) ==>
        var plan := Prepare(httpMethod, req, auth, hostname).value;
        && rows == old(rows)[plan.postId := SetColumn(old(rows)[plan.postId], plan.column, plan.cdnUrl)]
        && resp == Response(200, Recorded(RECORDED, plan.cdnUrl, rows[plan.postId]))
    {
      var prepared := Prepare(httpMethod, req, auth, hostname);
      if prepared.Failure? {
        return prepared.error;
      }
      var plan := prepared.value;
      if dbError.Some? {
        return Response(500, ErrorBody(RECORD_FAILED, dbError));
      }
      var updated := FilteredUpdate(rows, plan);
      if |updated.selected| == 0 {
        return Response(404, ErrorBody(NOT_FOUND, None));
      }
      rows := updated.rows;
      resp := Response(200, Recorded(RECORDED, plan.cdnUrl, updated.selected[0]));
    }
  }
}
