/**
 * The post detail dialog of PostDetailModal.jsx: who sees the owner menu, the like
 * button (which toggles the user's id in the post's like list once the backend has
 * accepted the like) and the comment form (which appends the new comment locally).
 */
module PostDetail {
  import opened Optional
  import opened Text
  import opened Entities

  /** `user?._id`, `user?.id` of a possibly signed-out user. */
  function DbIdOf(user: Option<User>): Option<string> {
    if user.Some? then user.value.dbId else None
  }

  function IdOf(user: Option<User>): Option<string> {
    if user.Some? then user.value.id else None
  }

  /**
   * Line 14 as written: `user?._id === post.user?._id || user?.id === post.user?._id`.
   * JavaScript's `===` holds between two `undefined`s, so a user without `_id`
   * "owns" every post whose author has no `_id` (for instance a bare id string).
   */
  predicate IsOwnerAsWritten(user: Option<User>, post: Post) {
    DbIdOf(user) == RefDbId(post.author) || IdOf(user) == RefDbId(post.author)
  }

  /** The discrepancy: a user `{id: "u1"}` and a post whose `user` is the bare id "u2". */
  lemma IsOwnerAsWrittenAdmitsStranger()
    ensures var u := NoUser.(id := Some("u1"));
            var p := Post("p1", Bare("u2"), None, [], None, [], []);
            IsOwnerAsWritten(Some(u), p) && u.id != Some("u2") && u.dbId != Some("u2")
  {
  }

  /** The evidently intended owner check: one of the user's ids is the author's `_id`. */
  predicate IsOwner(user: Option<User>, post: Post) {
    RefDbId(post.author).Some? && IsOwnerAsWritten(user, post)
  }

  /**
   * The corrected check holds exactly when a defined author id equals the user's
   * `_id` or `id`, and it agrees with the written one whenever the author has an `_id`.
   */
  lemma IsOwnerMeaning(user: Option<User>, post: Post)
    ensures IsOwner(user, post) <==>
              user.Some? && RefDbId(post.author).Some? &&
              (user.value.dbId == RefDbId(post.author) || user.value.id == RefDbId(post.author))
    ensures RefDbId(post.author).Some? ==> (IsOwner(user, post) <==> IsOwnerAsWritten(user, post))
    ensures IsOwner(user, post) ==> IsOwnerAsWritten(user, post)
  {
  }

  /**
   * `likes.filter(id => id !== x)`. The list and its helpers are generic: the like
   * list holds identifier strings, and `undefined` when a user without ids liked.
   */
  function RemoveAll<T(==)>(s: seq<T>, x: T): (r: seq<T>)
    ensures x !in r && |r| <= |s|
    ensures forall y :: y in r ==> y in s
    ensures forall y :: y in s && y != x ==> y in r
    ensures x !in s ==> r == s
  {
    if s == [] then [] else (if s[0] == x then [] else [s[0]]) + RemoveAll(s[1..], x)
  }

  /** The like list after a like: the user's id is removed if present and appended if absent. */
  function ToggleLikes<T(==)>(likes: seq<T>, key: T): (r: seq<T>)
    ensures key in r <==> key !in likes
    ensures forall y :: y in r && y != key ==> y in likes
    ensures forall y :: y in likes && y != key ==> y in r
    ensures key !in likes ==> r == likes + [key]
  {
    if key in likes then RemoveAll(likes, key) else likes + [key]
  }

  predicate NoDup<T(==)>(s: seq<T>) {
    forall i, j :: 0 <= i < j < |s| ==> s[i] != s[j]
  }

  lemma NoDupTail<T>(s: seq<T>)
    requires NoDup(s) && s != []
    ensures NoDup(s[1..]) && s[0] !in s[1..]
  {
    forall k | 0 <= k < |s| - 1
      ensures s[1..][k] != s[0]
    {
      assert s[1..][k] == s[k + 1];
    }
  }

  lemma NoDupCons<T>(a: T, t: seq<T>)
    requires NoDup(t) && a !in t
    ensures NoDup([a] + t)
  {
    forall i, j | 0 <= i < j < |[a] + t|
      ensures ([a] + t)[i] != ([a] + t)[j]
    {
      assert ([a] + t)[j] == t[j - 1];
      if i > 0 {
        assert ([a] + t)[i] == t[i - 1];
      }
    }
  }

  /** Filtering drops every copy of `x` and nothing else. */
  lemma {:induction false} RemoveAllCounts<T>(s: seq<T>, x: T)
    ensures multiset(RemoveAll(s, x)) == multiset(s)[x := 0]
  {
    if s != [] {
      RemoveAllCounts(s[1..], x);
      var head := if s[0] == x then [] else [s[0]];
      assert s == [s[0]] + s[1..];
      assert multiset(s) == multiset{s[0]} + multiset(s[1..]);
      assert RemoveAll(s, x) == head + RemoveAll(s[1..], x);
      assert multiset(RemoveAll(s, x)) == multiset(head) + multiset(s[1..])[x := 0];
    }
  }

  lemma {:induction false} RemoveAllLength<T>(s: seq<T>, x: T)
    ensures |RemoveAll(s, x)| == |s| - multiset(s)[x]
  {
    if s != [] {
      RemoveAllLength(s[1..], x);
      assert s == [s[0]] + s[1..];
    }
  }

  lemma {:induction false} RemoveAllKeepsNoDup<T>(s: seq<T>, x: T)
    requires NoDup(s)
    ensures NoDup(RemoveAll(s, x))
  {
    if s != [] {
      NoDupTail(s);
      RemoveAllKeepsNoDup(s[1..], x);
      if s[0] != x {
        NoDupCons(s[0], RemoveAll(s[1..], x));
      }
    }
  }

  lemma {:induction false} NoDupOnce<T>(s: seq<T>, x: T)
    requires NoDup(s) && x in s
    ensures multiset(s)[x] == 1
  {
    NoDupTail(s);
    assert s == [s[0]] + s[1..];
    if s[0] != x {
      NoDupOnce(s[1..], x);
    }
  }

  /** Removing a liker from a duplicate-free list removes exactly one entry. */
  lemma RemoveSingle<T>(s: seq<T>, x: T)
    requires NoDup(s) && x in s
    ensures NoDup(RemoveAll(s, x)) && |RemoveAll(s, x)| == |s| - 1
    ensures multiset(RemoveAll(s, x)) == multiset(s) - multiset{x}
  {
    RemoveAllCounts(s, x);
    RemoveAllLength(s, x);
    RemoveAllKeepsNoDup(s, x);
    NoDupOnce(s, x);
    assert multiset(s)[x := 0] == multiset(s) - multiset{x};
  }

  /** A duplicate-free like list stays duplicate-free and changes length by exactly one. */
  lemma ToggleKeepsNoDup<T>(likes: seq<T>, key: T)
    requires NoDup(likes)
    ensures NoDup(ToggleLikes(likes, key))
    ensures |ToggleLikes(likes, key)| == if key in likes then |likes| - 1 else |likes| + 1
  {
    if key in likes {
      RemoveSingle(likes, key);
    }
  }

  lemma {:induction false} RemoveAllAppend<T>(s: seq<T>, t: seq<T>, x: T)
    ensures RemoveAll(s + t, x) == RemoveAll(s, x) + RemoveAll(t, x)
  {
    if s != [] {
      var head := if s[0] == x then [] else [s[0]];
      assert (s + t)[0] == s[0] && (s + t)[1..] == s[1..] + t;
      assert RemoveAll(s + t, x) == head + RemoveAll(s[1..] + t, x);
      RemoveAllAppend(s[1..], t, x);
      assert RemoveAll(s, x) == head + RemoveAll(s[1..], x);
      assert head + (RemoveAll(s[1..], x) + RemoveAll(t, x)) == (head + RemoveAll(s[1..], x)) + RemoveAll(t, x);
    } else {
      assert s + t == t;
    }
  }

  /** Appending an id that is not in a duplicate-free list keeps it duplicate-free. */
  lemma AppendFresh<T>(s: seq<T>, x: T)
    requires NoDup(s) && x !in s
    ensures NoDup(s + [x])
  {
    forall i, j | 0 <= i < j < |s + [x]| ensures (s + [x])[i] != (s + [x])[j] {
      assert (s + [x])[i] == s[i];
    }
  }

  /**
   * Liking twice gives back the same likes: exactly when the user had not liked,
   * and up to order (the id moves to the end) when the user had.
   */
  lemma ToggleTwice<T>(likes: seq<T>, key: T)
    requires NoDup(likes)
    ensures multiset(ToggleLikes(ToggleLikes(likes, key), key)) == multiset(likes)
    ensures key !in likes ==> ToggleLikes(ToggleLikes(likes, key), key) == likes
  {
    if key in likes {
      RemoveSingle(likes, key);
      var once := RemoveAll(likes, key);
      assert ToggleLikes(once, key) == once + [key];
      assert multiset(once + [key]) == multiset(once) + multiset{key};
    } else {
      AppendFresh(likes, key);
      RemoveSingle(likes + [key], key);
      RemoveAllAppend(likes, [key], key);
      assert multiset(likes + [key]) - multiset{key} == multiset(likes);
    }
  }

  /** A user without ids likes with the value `undefined`, which no identifier string equals, not even "undefined". */
  lemma IdlessLikeAppendsUndefined(likes: seq<Option<string>>)
    requires None !in likes
    ensures ToggleLikes(likes, UserKey(NoUser)) == likes + [None]
  {
  }

  class PostDetailModal {
    const user: Option<User>
    var localPost: Post
    var comment: string

    constructor (post: Post, user: Option<User>)
      ensures localPost == post && this.user == user && comment == ""
    {
      localPost := post;
      this.user := user;
      comment := "";
    }

    /**
     * handleLike: after the backend accepts, the user's id (`_id`, else `id`; the
     * value `undefined` when the user has neither) is toggled in the like list with
     * `===`, and nothing else of the post changes. A failed call, or a signed-out
     * user (whose `user._id` throws inside the try), changes nothing.
     */
    method HandleLike(res: Reply<()>)
      modifies this
      ensures res.Ok? && user.Some? ==>
                localPost == old(localPost).(likes := ToggleLikes(old(localPost).likes, UserKey(user.value)))
      ensures !(res.Ok? && user.Some?) ==> localPost == old(localPost)
      ensures comment == old(comment)
    {
      if res.Fail? || user.None? {
        return;
      }
      var userId := UserKey(user.value);
      var updatedLikes := if userId in localPost.likes then RemoveAll(localPost.likes, userId)
                          else localPost.likes + [userId];
      localPost := localPost.(likes := updatedLikes);
    }

    /**
     * handleComment: a blank comment is ignored; an accepted one is appended, with
     * the user's name and avatar and the typed text, after the earlier comments, and
     * the input is cleared. A failed call or a signed-out user changes nothing.
     */
    method HandleComment(res: Reply<()>) returns (sent: bool)
      modifies this
      ensures sent <==> !IsBlank(old(comment))
      ensures sent && res.Ok? && user.Some? ==>
                localPost == old(localPost).(comments := old(localPost).comments +
                               [Comment(Populated(None, None, user.value.name, user.value.avatar), old(comment))])
                && comment == ""
      ensures !(sent && res.Ok? && user.Some?) ==> localPost == old(localPost) && comment == old(comment)
    {
      TrimEmptyIffBlank(comment);
      if Trim(comment) == [] {
        return false;
      }
      sent := true;
      if res.Fail? || user.None? {
        return;
      }
      var newComment := Comment(Populated(None, None, user.value.name, user.value.avatar), comment);
      localPost := localPost.(comments := localPost.comments + [newComment]);
      comment := "";
    }
  }
}
