/**
 * The signed-in user's own profile page, Profile.jsx: the grid split into a posts
 * tab and a reels tab, deleting one of the user's posts, editing name and bio, and
 * the handle shown above the profile.
 */
module Profile {
  import opened Optional
  import opened Text
  import opened Entities

  /** The tab filter of line 83: "posts" shows everything but reels, "reels" only reels, any other tab all. */
  predicate OnTab(p: Post, tab: string) {
    if tab == "posts" then p.postType != Some("reel")
    else if tab == "reels" then p.postType == Some("reel")
    else true
  }

  function FilteredPosts(posts: seq<Post>, tab: string): (r: seq<Post>)
    ensures |r| <= |posts|
    ensures forall p :: p in r ==> p in posts && OnTab(p, tab)
    ensures forall p :: p in posts && OnTab(p, tab) ==> p in r
  {
    if posts == [] then []
    else (if OnTab(posts[0], tab) then [posts[0]] else []) + FilteredPosts(posts[1..], tab)
  }

  /** The two tabs split the user's posts: every post is on exactly one of them, with its multiplicity. */
  lemma {:induction false} TabsPartition(posts: seq<Post>)
    ensures multiset(FilteredPosts(posts, "posts")) + multiset(FilteredPosts(posts, "reels")) == multiset(posts)
    ensures |FilteredPosts(posts, "posts")| + |FilteredPosts(posts, "reels")| == |posts|
  {
    if posts != [] {
      TabsPartition(posts[1..]);
      assert posts == [posts[0]] + posts[1..];
    }
  }

  /** Any tab other than the two named ones shows the list as it is. */
  lemma {:induction false} OtherTabShowsAll(posts: seq<Post>, tab: string)
    requires tab != "posts" && tab != "reels"
    ensures FilteredPosts(posts, tab) == posts
  {
    if posts != [] {
      OtherTabShowsAll(posts[1..], tab);
    }
  }

  /** `posts.filter(p => p._id !== postId)`. */
  function RemovePost(posts: seq<Post>, postId: string): (r: seq<Post>)
    ensures |r| <= |posts|
    ensures forall p :: p in r <==> p in posts && p.dbId != postId
  {
    if posts == [] then []
    else (if posts[0].dbId != postId then [posts[0]] else []) + RemovePost(posts[1..], postId)
  }

  /** Deleting keeps the other posts in their order: it commutes with splitting the list. */
  lemma {:induction false} RemovePostKeepsOrder(a: seq<Post>, b: seq<Post>, postId: string)
    ensures RemovePost(a + b, postId) == RemovePost(a, postId) + RemovePost(b, postId)
  {
    if a == [] {
      assert a + b == b;
    } else {
      assert (a + b)[1..] == a[1..] + b;
      RemovePostKeepsOrder(a[1..], b, postId);
    }
  }

  /** A list without that id is left exactly as it was. */
  lemma {:induction false} RemoveAbsentPost(posts: seq<Post>, postId: string)
    requires forall p :: p in posts ==> p.dbId != postId
    ensures RemovePost(posts, postId) == posts
  {
    if posts != [] {
      RemoveAbsentPost(posts[1..], postId);
    }
  }

  /** No white space anywhere in `s`. */
  predicate NoSpace(s: string) {
    forall i :: 0 <= i < |s| ==> !IsSpace(s[i])
  }

  /**
   * `replace(/\s+/g, '_')` scanned left to right: the first white-space character
   * of a run becomes `_`, the rest of the run is dropped. `inRun` says the previous
   * character was white space.
   */
  function CollapseFrom(s: string, inRun: bool): (r: string)
    ensures |r| <= |s|
    ensures NoSpace(r)
    ensures r == [] ==> inRun ==> IsBlank(s)
    ensures !inRun ==> (r == [] <==> s == [])
  {
    if s == [] then []
    else if IsSpace(s[0]) then (if inRun then [] else ['_']) + CollapseFrom(s[1..], true)
    else [s[0]] + CollapseFrom(s[1..], false)
  }

  function CollapseSpaces(s: string): (r: string)
    ensures |r| <= |s|
    ensures NoSpace(r)
    ensures r == [] <==> s == []
  {
    CollapseFrom(s, false)
  }

  /** A text without white space is kept as it is. */
  lemma {:induction false} CollapseKeepsWords(s: string, inRun: bool)
    requires NoSpace(s)
    ensures CollapseFrom(s, inRun) == s
  {
    if s != [] {
      assert NoSpace(s[1..]);
      CollapseKeepsWords(s[1..], false);
    }
  }

  /** The rest of a run of white space is dropped. */
  lemma {:induction false} CollapseSkipsRun(run: string, rest: string)
    requires IsBlank(run)
    ensures CollapseFrom(run + rest, true) == CollapseFrom(rest, true)
  {
    if run != [] {
      assert (run + rest)[0] == run[0];
      assert (run + rest)[1..] == run[1..] + rest;
      CollapseSkipsRun(run[1..], rest);
    } else {
      assert run + rest == rest;
    }
  }

  /** Right after a word nothing is in a run, so a text that does not start with white space is collapsed alike either way. */
  lemma CollapseAfterWord(rest: string)
    requires rest == [] || !IsSpace(rest[0])
    ensures CollapseFrom(rest, true) == CollapseFrom(rest, false)
  {
  }

  /** A leading word is copied as it is, and the text after it is collapsed from scratch. */
  lemma {:induction false} CollapseWord(word: string, rest: string)
    requires NoSpace(word)
    ensures CollapseSpaces(word + rest) == word + CollapseSpaces(rest)
  {
    if word == [] {
      assert word + rest == rest;
    } else {
      var s := word + rest;
      assert s[0] == word[0] && !IsSpace(s[0]);
      assert s[1..] == word[1..] + rest;
      assert NoSpace(word[1..]);
      CollapseWord(word[1..], rest);
      assert word + CollapseSpaces(rest) == [word[0]] + (word[1..] + CollapseSpaces(rest));
    }
  }

  /**
   * A run of white space after a word becomes a single underscore, and what follows
   * the run (which starts with a non-space, or is empty) is collapsed on its own.
   */
  lemma CollapseRun(word: string, run: string, rest: string)
    requires NoSpace(word)
    requires run != [] && IsBlank(run)
    requires rest == [] || !IsSpace(rest[0])
    ensures CollapseSpaces(word + run + rest) == word + "_" + CollapseSpaces(rest)
  {
    var s := run + rest;
    assert s[0] == run[0] && s[1..] == run[1..] + rest;
    CollapseSkipsRun(run[1..], rest);
    CollapseAfterWord(rest);
    assert CollapseSpaces(s) == "_" + CollapseSpaces(rest);
    assert word + run + rest == word + s;
    CollapseWord(word, s);
  }

  /** The handle of line 126: lower-cased name with `_` for white space; `user` for a missing or empty name. */
  function Handle(name: Option<string>): (h: string)
    ensures h != []
    ensures !Truthy(name) ==> h == "user"
    ensures Truthy(name) ==> |h| <= |name.value| && NoSpace(h)
  {
    if Truthy(name) then CollapseSpaces(Lower(name.value)) else "user"
  }

  /** Lower-casing keeps words free of white space and runs blank. */
  lemma LowerKeepsWords(s: string)
    ensures NoSpace(s) <==> NoSpace(Lower(s))
    ensures IsBlank(s) <==> IsBlank(Lower(s))
  {
    forall i | 0 <= i < |s|
      ensures IsSpace(Lower(s)[i]) <==> IsSpace(s[i])
    {
      LowerKeepsSpace(s[i]);
    }
  }

  /** A name without white space only changes case. */
  lemma HandleOfOneWord(name: string)
    requires name != [] && NoSpace(name)
    ensures Handle(Some(name)) == Lower(name)
  {
    LowerKeepsWords(name);
    CollapseKeepsWords(Lower(name), false);
  }

  /**
   * The handle of any name, one word at a time: a name that starts with a word
   * (possibly empty) and a run of white space gives the lower-cased word, one `_`,
   * and the handle of the rest, collapsed the same way.
   */
  lemma HandleSplits(word: string, run: string, rest: string)
    requires NoSpace(word)
    requires run != [] && IsBlank(run)
    requires rest == [] || !IsSpace(rest[0])
    ensures Handle(Some(word + run + rest)) == Lower(word) + "_" + CollapseSpaces(Lower(rest))
  {
    LowerAppend(word + run, rest);
    LowerAppend(word, run);
    LowerKeepsWords(word);
    LowerKeepsWords(run);
    if rest != [] {
      LowerKeepsSpace(rest[0]);
    }
    CollapseRun(Lower(word), Lower(run), Lower(rest));
  }

  lemma LowerExample()
    ensures Lower("A  B") == "a  b"
  {
    var l := Lower("A  B");
    assert l[0] == 'a' && l[1] == ' ' && l[2] == ' ' && l[3] == 'b';
  }

  lemma CollapseWordsExample()
    ensures CollapseSpaces("a  b") == "a_b"
  {
    assert "a  b" == "a" + "  " + "b";
    CollapseRun("a", "  ", "b");
    CollapseKeepsWords("b", false);
  }

  lemma CollapseBlankExample()
    ensures CollapseSpaces("   ") == "_"
  {
    assert "   " == [] + "   " + [];
    CollapseRun([], "   ", []);
    assert CollapseSpaces([]) == [];
  }

  /** A two-word name becomes a lower-case handle with one underscore. */
  lemma HandleOfTwoWords()
    ensures Handle(Some("A  B")) == "a_b"
  {
    LowerExample();
    CollapseWordsExample();
  }

  /** A name of spaces alone still yields a handle, `_`; no name yields `user`. */
  lemma HandleOfBlankOrMissing()
    ensures Handle(Some("   ")) == "_"
    ensures Handle(None) == "user" && Handle(Some("")) == "user"
  {
    CollapseBlankExample();
    var b := Lower("   ");
    assert b[0] == ' ' && b[1] == ' ' && b[2] == ' ';
    assert b == "   ";
  }

  class ProfilePage {
    var user: Option<User>
    var posts: seq<Post>
    var loadingPosts: bool
    var activeTab: string
    var showEditProfile: bool
    var newName: string
    var newBio: string

    constructor (user: Option<User>)
      ensures this.user == user && posts == [] && loadingPosts && activeTab == "posts" && !showEditProfile
      ensures newName == (if user.Some? then user.value.name.GetOr("") else "")
      ensures newBio == (if user.Some? then user.value.bio.GetOr("") else "")
    {
      this.user := user;
      posts := [];
      loadingPosts := true;
      activeTab := "posts";
      showEditProfile := false;
      newName := if user.Some? then user.value.name.GetOr("") else "";
      newBio := if user.Some? then user.value.bio.GetOr("") else "";
    }

    /** The tab the grid shows. */
    function Shown(): seq<Post>
      reads this
    {
      FilteredPosts(posts, activeTab)
    }

    /**
     * The effect on `user`, run with the session user `u`: on mount with the user the
     * page was built with, and again whenever the session user changes, as after the
     * `updateUser` of HandleImageUpload and HandleUpdateProfile. With a user, the edit
     * fields are reset from it and the posts are fetched for `user._id || user.id`;
     * with neither id nothing is fetched; with nobody signed in only `user` changes.
     */
    method SyncWithUser(u: Option<User>, res: Reply<seq<Post>>) returns (requested: bool)
      modifies this
      ensures user == u
      ensures requested <==> u.Some? && Truthy(UserKey(u.value))
      ensures posts == (if requested && res.Ok? then res.data else old(posts))
      ensures loadingPosts == (if requested then false else old(loadingPosts))
      ensures u.Some? ==> newName == u.value.name.GetOr("") && newBio == u.value.bio.GetOr("")
      ensures u.None? ==> newName == old(newName) && newBio == old(newBio)
      ensures activeTab == old(activeTab) && showEditProfile == old(showEditProfile)
    {
      user := u;
      requested := false;
      if user.None? {
        return;
      }
      var userId := UserKey(user.value);
      if Truthy(userId) {
        requested := true;
        if res.Ok? {
          posts := res.data;
        }
        loadingPosts := false;
      }
      newName := user.value.name.GetOr("");
      newBio := user.value.bio.GetOr("");
    }

    method SelectTab(tab: string)
      modifies this`activeTab
      ensures activeTab == tab
    {
      activeTab := tab;
    }

    /** handleDeletePost: only a confirmed and accepted delete removes the post, and only it. */
    method HandleDeletePost(postId: string, confirmed: bool, res: Reply<()>) returns (sent: bool)
      modifies this`posts
      ensures sent == confirmed
      ensures posts == if confirmed && res.Ok? then RemovePost(old(posts), postId) else old(posts)
    {
      sent := confirmed;
      if !confirmed {
        return;
      }
      if res.Ok? {
        posts := RemovePost(posts, postId);
      }
    }

    /** The Edit and Cancel buttons. */
    method SetEditing(open: bool)
      modifies this`showEditProfile
      ensures showEditProfile == open
    {
      showEditProfile := open;
    }

    /**
     * handleImageUpload: no file does nothing; otherwise the file is uploaded, its
     * URL saved as the avatar and the returned user handed to the session.
     */
    method HandleImageUpload(hasFile: bool, upload: Reply<string>, save: Reply<UserValue>)
      returns (saved: Option<string>, update: Option<UserValue>)
      ensures saved == if hasFile && upload.Ok? then Some(upload.data) else None
      ensures update == if saved.Some? && save.Ok? then Some(save.data) else None
    {
      saved, update := None, None;
      if !hasFile {
        return;
      }
      if upload.Ok? {
        saved := Some(upload.data);
        if save.Ok? {
          update := Some(save.data);
        }
      }
    }

    /**
     * handleUpdateProfile: a blank name is not sent. An accepted update hands the
     * returned user to the session (`update`) and closes the editor.
     */
    method HandleUpdateProfile(res: Reply<UserValue>) returns (sent: bool, update: Option<UserValue>)
      modifies this`showEditProfile
      ensures sent <==> !IsBlank(newName)
      ensures update == if sent && res.Ok? then Some(res.data) else None
      ensures showEditProfile == if update.Some? then false else old(showEditProfile)
    {
      TrimEmptyIffBlank(newName);
      sent, update := Trim(newName) != [], None;
      if !sent {
        return;
      }
      if res.Ok? {
        update := Some(res.data);
        showEditProfile := false;
      }
    }
  }
}
