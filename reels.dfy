/**
 * The like button of one reel in Reels.jsx. The flag and the counter are flipped
 * before the request is sent and both are put back exactly as they were if the
 * request fails.
 */
module Reels {
  import opened Optional
  import opened Entities
  import PostDetail

  datatype LikeState = LikeState(liked: bool, count: int)

  /** `reel.likes?.length || 0`. */
  function InitialCount(likes: Option<seq<string>>): (n: nat)
    ensures likes.Some? ==> n == |likes.value|
    ensures likes.None? ==> n == 0
  {
    if likes.Some? then |likes.value| else 0
  }

  /**
   * The like-state effect: with a user and a like list, liked holds when some id
   * prints like `String(user._id || user.id)`; otherwise it keeps its initial false.
   */
  function InitiallyLiked(likes: Option<seq<string>>, user: Option<User>): (b: bool)
    ensures b <==> user.Some? && likes.Some? && KeyString(UserKey(user.value)) in likes.value
  {
    if user.Some? && likes.Some? then
      exists i :: 0 <= i < |likes.value| && likes.value[i] == KeyString(UserKey(user.value))
    else false
  }

  /** The optimistic update: the flag flips, the count goes one up on a like and one down on an unlike. */
  function Optimistic(s: LikeState): (r: LikeState)
    ensures r.liked == !s.liked
    ensures r.count == if s.liked then s.count - 1 else s.count + 1
  {
    LikeState(!s.liked, if s.liked then s.count - 1 else s.count + 1)
  }

  /** Two accepted toggles give back the original flag and count. */
  lemma OptimisticTwice(s: LikeState)
    ensures Optimistic(Optimistic(s)) == s
  {
  }

  /** A count that never goes below zero, and is at least one while liked. */
  predicate Consistent(s: LikeState) {
    s.count >= 0 && (s.liked ==> s.count >= 1)
  }

  lemma OptimisticKeepsConsistent(s: LikeState)
    requires Consistent(s)
    ensures Consistent(Optimistic(s))
  {
  }

  /**
   * The optimistic counter is what the backend's like list would show: starting
   * from a duplicate-free list, flipping (member?, length) matches toggling the id
   * in the list.
   */
  lemma AgreesWithListToggle(likes: seq<string>, key: string)
    requires PostDetail.NoDup(likes)
    ensures var t := PostDetail.ToggleLikes(likes, key);
            Optimistic(LikeState(key in likes, |likes|)) == LikeState(key in t, |t|)
  {
    PostDetail.ToggleKeepsNoDup(likes, key);
  }

  class ReelItem {
    const user: Option<User>
    var liked: bool
    var likeCount: int

    function State(): LikeState
      reads this
    {
      LikeState(liked, likeCount)
    }

    constructor (likes: Option<seq<string>>, user: Option<User>)
      ensures this.user == user
      ensures liked == InitiallyLiked(likes, user) && likeCount == InitialCount(likes)
      ensures Consistent(State())
    {
      this.user := user;
      liked := InitiallyLiked(likes, user);
      likeCount := InitialCount(likes);
    }

    /**
     * toggleLike: without a user only the login prompt appears. Otherwise `shown`
     * is the state displayed while the request is in flight, and the state after it
     * is that one on success and the saved one on failure.
     */
    method ToggleLike(res: Reply<()>) returns (loginPrompt: bool, shown: LikeState)
      requires Consistent(State())
      modifies this
      ensures Consistent(State())
      ensures loginPrompt <==> user.None?
      ensures user.None? ==> State() == old(State())
      ensures user.Some? ==> shown == Optimistic(old(State()))
      ensures user.Some? && res.Ok? ==> State() == Optimistic(old(State()))
      ensures user.Some? && res.Fail? ==> State() == old(State())
    {
      shown := State();
      if user.None? {
        return true, shown;
      }
      loginPrompt := false;
      var prevLiked, prevCount := liked, likeCount;
      likeCount := if liked then likeCount - 1 else likeCount + 1;
      liked := !liked;
      shown := State();
      if res.Fail? {
        liked := prevLiked;
        likeCount := prevCount;
      }
    }
  }
}
