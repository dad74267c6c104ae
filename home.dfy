/**
 * The home feed of Home.jsx: the composer (caption, optional file, post or reel),
 * the feed's media kind detection, and the comment drawer of which at most one
 * post has open at a time, with its emoji picker and delete permissions.
 */
module Home {
  import opened Optional
  import opened Text
  import opened Entities

  /**
   * `friendCount = user?.friends?.length || 0` and `canPost = friendCount > 0`
   * (lines 25-26): posting needs at least one friend.
   */
  predicate CanPost(user: Option<User>) {
    user.Some? && user.value.friends.Some? && |user.value.friends.value| > 0
  }

  /** `/\.(mp4|webm|mov|mkv)$/i`: the regex's case folding only pairs these ASCII letters. */
  predicate HasVideoExtension(url: string) {
    var l := Lower(url);
    EndsWith(l, ".mp4") || EndsWith(l, ".webm") || EndsWith(l, ".mov") || EndsWith(l, ".mkv")
  }

  /** isVideo: a known video extension in any case, or a `/video/` path segment (case-sensitive). */
  predicate IsVideoUrl(url: string) {
    HasVideoExtension(url) || Contains(url, "/video/")
  }

  lemma VideoUrlExamples()
    ensures IsVideoUrl("a.MP4") && IsVideoUrl("x.WebM")
    ensures IsVideoUrl("a/video/b.jpg")
  {
    assert Lower("a.MP4") == "a.mp4";
    assert Lower("x.WebM") == "x.webm";
    assert StartsWith("a/video/b.jpg"[1..], "/video/");
  }

  /** A query string after the extension hides it: the regular expression is anchored at the end. */
  lemma QueryHidesExtension()
    ensures !IsVideoUrl("a.mp4?v=1")
  {
    var q := "a.mp4?v=1";
    assert !Contains(q, "/video/") by {
      forall i | 0 <= i <= |q| ensures !StartsWith(q[i..], "/video/") {
        if i <= 2 {
          assert q[i..][0] == q[i] != '/';
        }
      }
    }
    assert Lower(q) == q;
  }

  lemma ImageUrlIsNotVideo()
    ensures !IsVideoUrl("a.png")
  {
    assert !Contains("a.png", "/video/");
    assert Lower("a.png") == "a.png";
  }

  /** Lower-casing the URL first does not change whether it has a video extension. */
  lemma ExtensionIgnoresCase(url: string)
    ensures HasVideoExtension(url) <==> HasVideoExtension(Lower(url))
  {
    assert Lower(Lower(url)) == Lower(url);
  }

  /** A video URL stays a video URL under any prefix (a longer host or path). */
  lemma VideoUrlKeepsUnderPrefix(prefix: string, url: string)
    requires IsVideoUrl(url)
    ensures IsVideoUrl(prefix + url)
  {
    LowerAppend(prefix, url);
    var l, whole := Lower(url), Lower(prefix + url);
    forall e: string | EndsWith(l, e) ensures EndsWith(whole, e) {
      assert whole[|whole| - |e|..] == l[|l| - |e|..];
    }
    if Contains(url, "/video/") {
      var i :| 0 <= i <= |url| && StartsWith(url[i..], "/video/");
      assert (prefix + url)[i + |prefix|..] == url[i..];
    }
  }

  /**
   * Line 329: a comment may be deleted by the signed-in user when `String` of the
   * user's id equals `String` of the comment author's or of the post author's.
   */
  predicate CanDeleteComment(user: Option<User>, comment: Comment, post: Post) {
    var me := KeyString(if user.Some? then UserKey(user.value) else None);
    me == RefString(comment.author) || me == RefString(post.author)
  }

  /**
   * The identifier a reference names, if any: a populated author's truthy `_id`,
   * else its truthy `id`; a bare identifier itself; `null` and `undefined` name nobody.
   */
  function AuthorKey(r: Ref): (k: Option<string>)
    ensures r.Populated? ==> (k.Some? <==> Truthy(r.dbId) || Truthy(r.id)) && (k.Some? ==> k == FirstTruthy(r.dbId, r.id) && k.value != "")
    ensures r.Bare? ==> k == Some(r.key)
    ensures r.NullRef? || r.Absent? ==> k.None?
  {
    match r
    case Populated(d, i, _, _) => if Truthy(d) then d else if Truthy(i) then i else None
    case Bare(k) => Some(k)
    case NullRef => None
    case Absent => None
  }

  /** Printing a reference gives an identifier back exactly when the reference names it, unless the identifier is one of the three texts `String` prints for a non-identifier. */
  lemma RefStringNames(r: Ref, k: string)
    requires k != "undefined" && k != "null" && k != "[object Object]"
    ensures RefString(r) == k <==> AuthorKey(r) == Some(k)
  {
    match r
    case Populated(d, i, _, _) =>
      if Truthy(d) {
        assert RefString(r) == d.value;
      } else if Truthy(i) {
        assert RefString(r) == i.value;
      } else {
        assert RefString(r) == "[object Object]";
      }
    case Bare(_) =>
    case NullRef =>
      assert RefString(r) == "null";
    case Absent =>
      assert RefString(r) == "undefined";
  }

  /**
   * For a signed-in user with an identifier, the delete control of a comment shows
   * exactly when the user is the comment's author or the post's author.
   */
  lemma CommentDeleteRule(user: User, comment: Comment, post: Post)
    requires UserKey(user).Some?
    requires var k := UserKey(user).value; k != "undefined" && k != "null" && k != "[object Object]"
    ensures CanDeleteComment(Some(user), comment, post) <==>
      AuthorKey(comment.author) == UserKey(user) || AuthorKey(post.author) == UserKey(user)
  {
    RefStringNames(comment.author, UserKey(user).value);
    RefStringNames(post.author, UserKey(user).value);
  }

  /**
   * Without a user identifier, `String(undefined)` is compared: the control shows on
   * every comment of a post whose author is missing, or whose author is missing itself.
   */
  lemma AnonymousCommentDeleteRule(user: Option<User>, comment: Comment, post: Post)
    requires user.None? || UserKey(user.value).None?
    ensures CanDeleteComment(user, comment, post) <==>
      comment.author.Absent? || AuthorKey(comment.author) == Some("undefined") ||
      post.author.Absent? || AuthorKey(post.author) == Some("undefined")
  {
    assert KeyString(if user.Some? then UserKey(user.value) else None) == "undefined";
    assert RefString(comment.author) == "undefined" <==>
      comment.author.Absent? || AuthorKey(comment.author) == Some("undefined");
    assert RefString(post.author) == "undefined" <==>
      post.author.Absent? || AuthorKey(post.author) == Some("undefined");
  }

  /** Line 271 as written: `user?._id === post.user?._id`, where two `undefined`s are equal. */
  predicate ShowDeletePostAsWritten(user: Option<User>, post: Post) {
    (if user.Some? then user.value.dbId else None) == RefDbId(post.author)
  }

  /** The discrepancy: a user `{id: "u1"}` sees the delete control on a post whose `user` is "u2". */
  lemma ShowDeletePostAsWrittenAdmitsStranger()
    ensures var u := NoUser.(id := Some("u1"));
            ShowDeletePostAsWritten(Some(u), Post("p1", Bare("u2"), None, [], None, [], []))
  {
  }

  /** The intended rule: the control appears when the user's `_id` is the author's defined `_id`. */
  predicate ShowDeletePost(user: Option<User>, post: Post) {
    RefDbId(post.author).Some? && ShowDeletePostAsWritten(user, post)
  }

  lemma ShowDeletePostMeaning(user: Option<User>, post: Post)
    ensures ShowDeletePost(user, post) <==>
              user.Some? && user.value.dbId.Some? && user.value.dbId == RefDbId(post.author)
    ensures RefDbId(post.author).Some? ==> (ShowDeletePost(user, post) <==> ShowDeletePostAsWritten(user, post))
  {
  }

  class HomeFeed {
    const user: Option<User>
    var posts: seq<Post>
    var loading: bool
    var newPost: string
    var newPostType: string
    var selectedFile: Option<MediaFile>
    var previewUrl: Option<string>
    var fileType: Option<MediaKind>
    var uploading: bool
    var activePostId: Option<string>
    var commentText: string
    var showEmojiPicker: bool

    constructor (user: Option<User>)
      ensures this.user == user && posts == [] && loading && newPost == "" && newPostType == "post"
      ensures selectedFile.None? && previewUrl.None? && fileType.None? && !uploading
      ensures activePostId.None? && commentText == "" && !showEmojiPicker
    {
      this.user := user;
      posts := [];
      loading := true;
      newPost := "";
      newPostType := "post";
      selectedFile := None;
      previewUrl := None;
      fileType := None;
      uploading := false;
      activePostId := None;
      commentText := "";
      showEmojiPicker := false;
    }

    /** fetchPosts: the feed is replaced on success, kept on failure; loading ends either way. */
    method FetchPosts(res: Reply<seq<Post>>)
      modifies this
      ensures posts == (if res.Ok? then res.data else old(posts)) && !loading
      ensures newPost == old(newPost) && newPostType == old(newPostType) && selectedFile == old(selectedFile)
      ensures previewUrl == old(previewUrl) && fileType == old(fileType) && uploading == old(uploading)
      ensures activePostId == old(activePostId) && commentText == old(commentText)
      ensures showEmojiPicker == old(showEmojiPicker)
    {
      if res.Ok? {
        posts := res.data;
      }
      loading := false;
    }

    /** handleFileSelect: a chosen file is kept with its preview URL and its kind. */
    method HandleFileSelect(file: Option<MediaFile>, objectUrl: string)
      modifies this
      ensures file.None? ==> selectedFile == old(selectedFile) && previewUrl == old(previewUrl) && fileType == old(fileType)
      ensures file.Some? ==> selectedFile == file && previewUrl == Some(objectUrl) && fileType == Some(KindFromMime(file.value.mime))
      ensures posts == old(posts) && newPost == old(newPost) && newPostType == old(newPostType)
      ensures uploading == old(uploading) && activePostId == old(activePostId) && commentText == old(commentText)
      ensures showEmojiPicker == old(showEmojiPicker) && loading == old(loading)
    {
      if file.None? {
        return;
      }
      selectedFile := file;
      previewUrl := Some(objectUrl);
      fileType := Some(KindFromMime(file.value.mime));
    }

    method ClearFile()
      modifies this
      ensures selectedFile.None? && previewUrl.None? && fileType.None?
      ensures posts == old(posts) && newPost == old(newPost) && newPostType == old(newPostType)
      ensures uploading == old(uploading) && activePostId == old(activePostId) && commentText == old(commentText)
      ensures showEmojiPicker == old(showEmojiPicker) && loading == old(loading)
    {
      selectedFile := None;
      previewUrl := None;
      fileType := None;
    }

    /** The reel checkbox (line 206). */
    method SetReel(checked: bool)
      modifies this`newPostType
      ensures newPostType == if checked then "reel" else "post"
    {
      newPostType := if checked then "reel" else "post";
    }

    /**
     * handlePost: nothing is sent for a blank caption without a file. A selected
     * file is uploaded first and its URL becomes the post's media; a failed upload
     * sends no post. After an accepted post the caption is cleared, the type goes
     * back to "post", the file is dropped and the feed is refetched. The button
     * that calls it is disabled unless CanPost (line 236); that gate is in the
     * markup, so this method models the handler once it has been called.
     */
    method HandlePost(upload: Reply<string>, create: Reply<()>) returns (request: Option<PostRequest>, refetch: bool)
      modifies this
      ensures IsBlank(old(newPost)) && old(selectedFile).None? ==> request.None? && uploading == old(uploading)
      ensures request.Some? <==> !(IsBlank(old(newPost)) && old(selectedFile).None?) && (old(selectedFile).Some? ==> upload.Ok?)
      ensures request.Some? ==> request.value.caption == old(newPost) && request.value.postType == old(newPostType)
      ensures request.Some? && old(selectedFile).None? ==> request.value.media == []
      ensures request.Some? && old(selectedFile).Some? ==>
                request.value.media == (if upload.data != "" then [upload.data] else [])
      ensures refetch <==> request.Some? && create.Ok?
      ensures refetch ==> newPost == "" && newPostType == "post" && selectedFile.None? && previewUrl.None? && fileType.None?
      ensures !refetch ==> newPost == old(newPost) && newPostType == old(newPostType) && selectedFile == old(selectedFile)
                           && previewUrl == old(previewUrl) && fileType == old(fileType)
      ensures !(IsBlank(old(newPost)) && old(selectedFile).None?) ==> !uploading
      ensures posts == old(posts) && activePostId == old(activePostId) && commentText == old(commentText)
      ensures showEmojiPicker == old(showEmojiPicker) && loading == old(loading)
    {
      request, refetch := None, false;
      TrimEmptyIffBlank(newPost);
      if Trim(newPost) == [] && selectedFile.None? {
        return;
      }
      uploading := true;
      var mediaUrl: Option<string> := None;
      if selectedFile.Some? {
        if upload.Fail? {
          uploading := false;
          return;
        }
        mediaUrl := Some(upload.data);
      }
      request := Some(PostRequest(newPost, if mediaUrl.Some? && mediaUrl.value != "" then [mediaUrl.value] else [], newPostType));
      if create.Ok? {
        newPost := "";
        newPostType := "post";
        ClearFile();
        refetch := true;
      }
      uploading := false;
    }

    /**
     * toggleComments: the open post closes; another post opens with an empty
     * comment box and the emoji picker hidden.
     */
    method ToggleComments(postId: string)
      modifies this
      ensures old(activePostId) == Some(postId) ==>
                activePostId.None? && commentText == old(commentText) && showEmojiPicker == old(showEmojiPicker)
      ensures old(activePostId) != Some(postId) ==>
                activePostId == Some(postId) && commentText == "" && !showEmojiPicker
      ensures posts == old(posts) && newPost == old(newPost) && newPostType == old(newPostType)
      ensures selectedFile == old(selectedFile) && previewUrl == old(previewUrl) && fileType == old(fileType)
      ensures uploading == old(uploading) && loading == old(loading)
    {
      if activePostId == Some(postId) {
        activePostId := None;
      } else {
        activePostId := Some(postId);
        commentText := "";
        showEmojiPicker := false;
      }
    }

    /** handleComment: a blank comment is not sent; an accepted one clears the box and the picker. */
    method HandleComment(postId: string, res: Reply<()>) returns (sent: bool, refetch: bool)
      modifies this
      ensures sent <==> !IsBlank(old(commentText))
      ensures refetch <==> sent && res.Ok?
      ensures refetch ==> commentText == "" && !showEmojiPicker
      ensures !refetch ==> commentText == old(commentText) && showEmojiPicker == old(showEmojiPicker)
      ensures posts == old(posts) && newPost == old(newPost) && newPostType == old(newPostType)
      ensures selectedFile == old(selectedFile) && previewUrl == old(previewUrl) && fileType == old(fileType)
      ensures uploading == old(uploading) && loading == old(loading) && activePostId == old(activePostId)
    {
      TrimEmptyIffBlank(commentText);
      sent, refetch := Trim(commentText) != [], false;
      if !sent {
        return;
      }
      if res.Ok? {
        commentText := "";
        showEmojiPicker := false;
        refetch := true;
      }
    }

    /** onEmojiClick: the emoji is appended to the comment being typed. */
    method OnEmojiClick(emoji: string)
      modifies this`commentText
      ensures commentText == old(commentText) + emoji
    {
      commentText := commentText + emoji;
    }

    /** The smiley button (line 372). */
    method ToggleEmojiPicker()
      modifies this`showEmojiPicker
      ensures showEmojiPicker == !old(showEmojiPicker)
    {
      showEmojiPicker := !showEmojiPicker;
    }
  }
}
