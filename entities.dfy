/**
 * The records the client receives from its REST backend, reduced to the fields
 * the modelled handlers read, and the shape of a backend reply.
 * A JavaScript property that may be absent is an Option.
 */
module Entities {
  import opened Optional
  import opened Text

  /** JavaScript truthiness of a possibly absent string: absent and "" are falsy. */
  predicate Truthy(s: Option<string>) {
    s.Some? && s.value != ""
  }

  /** `a || b` on two possibly absent strings. */
  function FirstTruthy(a: Option<string>, b: Option<string>): (r: Option<string>)
    ensures Truthy(a) ==> r == a
    ensures !Truthy(a) ==> r == b
  {
    if Truthy(a) then a else b
  }

  /** The signed-in user as the backend sends it (`_id` is called dbId here). */
  datatype User = User(
    dbId: Option<string>,
    id: Option<string>,
    name: Option<string>,
    avatar: Option<string>,
    email: Option<string>,
    phone: Option<string>,
    bio: Option<string>,
    friends: Option<seq<string>>,
    plan: Option<string>,              // user.subscription.plan
    isPublic: Option<bool>,
    preferredLanguage: Option<string>)

  /**
   * A user-valued property or argument as JavaScript distinguishes it: `undefined`
   * (absent), `null`, or a user object. The in-memory session does not tell the first
   * two apart (both are falsy), but `JSON.stringify` does.
   */
  datatype UserValue = Undefined | Null | Defined(user: User)
  {
    /** The value as the in-memory user: `null` and `undefined` are both nobody. */
    function AsOption(): (r: Option<User>)
      ensures r.Some? <==> Defined?
      ensures Defined? ==> r.value == user
    {
      if Defined? then Some(user) else None
    }
  }

  /** A user object without any of these fields; `{...null}` spreads to it. */
  const NoUser: User := User(None, None, None, None, None, None, None, None, None, None, None)

  /** `user._id || user.id`: the identifier the pages use for the current user. */
  function UserKey(u: User): (r: Option<string>)
    ensures Truthy(u.dbId) ==> r == u.dbId
    ensures !Truthy(u.dbId) ==> r == u.id
  {
    FirstTruthy(u.dbId, u.id)
  }

  /** `String(x)` of that identifier: an absent one prints as "undefined". */
  function KeyString(k: Option<string>): string {
    match k
    case Some(s) => s
    case None => "undefined"
  }

  /**
   * A reference to a user inside a post or a comment: an object, populated by the
   * backend with `_id`/`id`/`name`/`avatar`, a bare identifier string, `null`,
   * or nothing (`undefined`).
   */
  datatype Ref =
    | Populated(dbId: Option<string>, id: Option<string>, name: Option<string>, avatar: Option<string>)
    | Bare(key: string)
    | NullRef
    | Absent

  /** `ref?._id`: a bare string, `null` and an absent reference have no `_id`. */
  function RefDbId(r: Ref): Option<string> {
    match r
    case Populated(d, _, _, _) => d
    case Bare(_) => None
    case NullRef => None
    case Absent => None
  }

  /** `String(ref?._id || ref?.id || ref)`: how Home.jsx prints a reference for comparison. */
  function RefString(r: Ref): (s: string)
    ensures r.Bare? ==> s == r.key
    ensures r.NullRef? ==> s == "null"
    ensures r.Absent? ==> s == "undefined"
  {
    match r
    case Populated(d, i, _, _) =>
      if Truthy(d) then d.value else if Truthy(i) then i.value else "[object Object]"
    case Bare(k) => k
    case NullRef => "null"
    case Absent => "undefined"
  }

  datatype Comment = Comment(author: Ref, text: string)

  /** A feed post or reel; `postType` is the backend's `type` field ("post", "reel", ...). */
  datatype Post = Post(
    dbId: string,
    author: Ref,
    caption: Option<string>,
    media: seq<string>,
    postType: Option<string>,
    likes: seq<Option<string>>,        // ids compared with ===; `undefined` once a user without ids liked
    comments: seq<Comment>)

  /** A file chosen in a file input: only its MIME type (`file.type`) matters here. */
  datatype MediaFile = MediaFile(mime: string)

  datatype MediaKind = Image | Video

  /** `file.type.startsWith('video') ? 'video' : 'image'` (story upload and feed composer). */
  function KindFromMime(mime: string): (k: MediaKind)
    ensures k == Video <==> |mime| >= 5 && mime[..5] == "video"
  {
    if StartsWith(mime, "video") then Video else Image
  }

  /** The body of `POST /posts`: caption, media URLs and `type` ("post" or "reel"). */
  datatype PostRequest = PostRequest(caption: string, media: seq<string>, postType: string)

  /** What a failed request carries: `err.response?.status` and `err.response?.data?.message`. */
  datatype ApiError = ApiError(status: Option<int>, message: Option<string>)

  /** The outcome of one awaited backend call. */
  datatype Reply<+T> = Ok(data: T) | Fail(err: ApiError)

  /** `err.response?.data?.message || fallback`. */
  function ErrorText(e: ApiError, fallback: string): (r: string)
    ensures Truthy(e.message) ==> r == e.message.value
    ensures !Truthy(e.message) ==> r == fallback
  {
    if Truthy(e.message) then e.message.value else fallback
  }
}
