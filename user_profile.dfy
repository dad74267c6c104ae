/**
 * Another user's profile page, UserProfile.jsx: who may see the posts, the friend
 * status, adding a friend, the private-account notice and the friends counter.
 */
module UserProfile {
  import opened Optional
  import opened Entities

  /** The profile the server returns: a user with the two extra fields the page reads. */
  datatype ProfileData = ProfileData(user: User, isPrivate: Option<bool>, friendsCount: Option<int>)

  /** `'sent'` is named by the page but never set, so two states remain. */
  datatype FriendStatus = NoRequest | Connected

  /** `currentUser?.friends?.includes(id)`. */
  predicate IsFriend(currentUser: Option<User>, id: string) {
    currentUser.Some? && currentUser.value.friends.Some? && id in currentUser.value.friends.value
  }

  /** `id === currentUser?.id`. */
  predicate IsOwn(currentUser: Option<User>, id: string) {
    currentUser.Some? && currentUser.value.id == Some(id)
  }

  /** Line 33: the posts are requested for a public profile, one's own, or a friend's. */
  predicate CanSeePosts(p: ProfileData, id: string, currentUser: Option<User>) {
    p.user.isPublic == Some(true) || IsOwn(currentUser, id) || IsFriend(currentUser, id)
  }

  /** Line 126: the notice replaces the posts for a private profile that is neither a friend's nor one's own. */
  predicate ShowsPrivateNotice(p: ProfileData, status: FriendStatus, id: string, currentUser: Option<User>) {
    p.isPrivate == Some(true) && status != Connected && !IsOwn(currentUser, id)
  }

  /** Lines 106-109: the add-friend button is hidden on one's own profile and disabled once connected. */
  predicate ShowsAddFriend(id: string, currentUser: Option<User>) {
    !IsOwn(currentUser, id)
  }

  predicate AddFriendDisabled(status: FriendStatus) {
    status == Connected
  }

  /** Line 97: `friends?.length || friendsCount || 0`. */
  function FriendsShown(p: ProfileData): (n: int)
    ensures p.user.friends.Some? && |p.user.friends.value| > 0 ==> n == |p.user.friends.value|
    ensures (p.user.friends.None? || p.user.friends.value == []) && p.friendsCount.Some? ==> n == p.friendsCount.value
    ensures (p.user.friends.None? || p.user.friends.value == []) && p.friendsCount.None? ==> n == 0
  {
    if p.user.friends.Some? && |p.user.friends.value| > 0 then |p.user.friends.value|
    else if p.friendsCount.Some? && p.friendsCount.value != 0 then p.friendsCount.value
    else 0
  }

  /** The current user with `id` appended to the friends kept so far: `{ ...currentUser, friends: [...(currentUser.friends || []), id] }`. */
  function AddedFriend(u: User, id: string): (v: User)
    ensures IsFriend(Some(v), id)
    ensures v == u.(friends := v.friends) && v.friends.Some?
    ensures v.friends.value == u.friends.GetOr([]) + [id]
  {
    u.(friends := Some(u.friends.GetOr([]) + [id]))
  }

  /** A friend always sees the posts and never the private notice once the status is connected. */
  lemma FriendSeesEverything(p: ProfileData, id: string, currentUser: Option<User>)
    requires IsFriend(currentUser, id)
    ensures CanSeePosts(p, id, currentUser)
    ensures !ShowsPrivateNotice(p, Connected, id, currentUser)
  {
  }

  /**
   * The notice and the fetch read different fields (`isPrivate` and `isPublic`):
   * a stranger may be shown neither the notice nor any post of a profile that is
   * not public.
   */
  lemma NoticeAndFetchDisagree()
    ensures var p := ProfileData(NoUser.(id := Some("u2"), isPublic := Some(false)), None, None);
      !CanSeePosts(p, "u2", None) && !ShowsPrivateNotice(p, NoRequest, "u2", None)
  {
  }

  class UserProfilePage {
    const id: string
    var currentUser: Option<User>
    var profileUser: Option<ProfileData>
    var posts: seq<Post>
    var loading: bool
    var error: string
    var friendStatus: FriendStatus

    constructor (id: string, currentUser: Option<User>)
      ensures this.id == id && this.currentUser == currentUser
      ensures profileUser.None? && posts == [] && loading && error == "" && friendStatus == NoRequest
    {
      this.id := id;
      this.currentUser := currentUser;
      profileUser := None;
      posts := [];
      loading := true;
      error := "";
      friendStatus := NoRequest;
    }

    /**
     * fetchProfile: loads the profile, marks a friend as connected (never the
     * other way round), and requests the posts only when they may be seen. A
     * failure of either request shows the server's message or the fallback.
     * `viewer` is the `currentUser` of the render whose `fetchProfile` runs: the
     * page's own on mount (the effect on `[id]`), an older one for the refetch
     * after adding a friend.
     */
    method FetchProfile(viewer: Option<User>, res: Reply<ProfileData>, postsRes: Reply<seq<Post>>) returns (postsRequested: bool)
      modifies this`profileUser, this`posts, this`loading, this`error, this`friendStatus
      ensures postsRequested <==> res.Ok? && CanSeePosts(res.data, id, viewer)
      ensures profileUser == if res.Ok? then Some(res.data) else old(profileUser)
      ensures friendStatus == if res.Ok? && IsFriend(viewer, id) then Connected else old(friendStatus)
      ensures posts == if postsRequested && postsRes.Ok? then postsRes.data else old(posts)
      ensures error == if res.Fail? then ErrorText(res.err, "Failed to load profile")
                       else if postsRequested && postsRes.Fail? then ErrorText(postsRes.err, "Failed to load profile")
                       else ""
      ensures !loading
    {
      loading := true;
      error := "";
      postsRequested := false;
      match res {
        case Fail(e) =>
          error := ErrorText(e, "Failed to load profile");
        case Ok(data) =>
          profileUser := Some(data);
          if IsFriend(viewer, id) {
            friendStatus := Connected;
          }
          if CanSeePosts(data, id, viewer) {
            postsRequested := true;
            match postsRes {
              case Ok(ps) => posts := ps;
              case Fail(e) => error := ErrorText(e, "Failed to load profile");
            }
          }
      }
      loading := false;
    }

    /**
     * handleAddFriend: an accepted request marks the profile connected and hands the
     * session the current user with the id appended to its friends; the profile is
     * then fetched again. That `fetchProfile` belongs to the render the click came
     * from, so it still sees the user from before the update: the posts are
     * requested by the old gate. Without a signed-in user the copy throws after
     * the status has changed, and neither follows. After an accepted request the
     * button is disabled and no profile shows the private notice; whether the
     * button shows at all does not change, since the copy keeps the user's ids.
     */
    method HandleAddFriend(res: Reply<()>, profileRes: Reply<ProfileData>, postsRes: Reply<seq<Post>>)
      returns (updated: Option<User>, refetch: bool, postsRequested: bool)
      modifies this`currentUser, this`friendStatus, this`profileUser, this`posts, this`loading, this`error
      ensures friendStatus == if res.Ok? then Connected else old(friendStatus)
      ensures refetch <==> res.Ok? && old(currentUser).Some?
      ensures updated.Some? <==> refetch
      ensures refetch ==> updated.value == AddedFriend(old(currentUser).value, id)
      ensures currentUser == if refetch then updated else old(currentUser)
      ensures refetch ==> IsFriend(currentUser, id)
      ensures postsRequested <==> refetch && profileRes.Ok? && CanSeePosts(profileRes.data, id, old(currentUser))
      ensures profileUser == if refetch && profileRes.Ok? then Some(profileRes.data) else old(profileUser)
      ensures posts == if postsRequested && postsRes.Ok? then postsRes.data else old(posts)
      ensures error == if !refetch then old(error)
                       else if profileRes.Fail? then ErrorText(profileRes.err, "Failed to load profile")
                       else if postsRequested && postsRes.Fail? then ErrorText(postsRes.err, "Failed to load profile")
                       else ""
      ensures loading == if refetch then false else old(loading)
      ensures res.Ok? ==> AddFriendDisabled(friendStatus) && forall p :: !ShowsPrivateNotice(p, friendStatus, id, currentUser)
      ensures ShowsAddFriend(id, currentUser) <==> ShowsAddFriend(id, old(currentUser))
    {
      updated, refetch, postsRequested := None, false, false;
      if res.Fail? {
        return;
      }
      friendStatus := Connected;
      if currentUser.None? {
        return;
      }
      var stale := currentUser;
      updated := Some(AddedFriend(currentUser.value, id));
      currentUser := updated;
      refetch := true;
      postsRequested := FetchProfile(stale, profileRes, postsRes);
    }
  }

  /**
   * The refetch after adding a friend as written: on a profile that is not public,
   * a user who was not yet a friend gets no posts requested, and, now connected,
   * no private notice either, so the page shows neither.
   */
  lemma StaleRefetchHidesProfile(p: ProfileData, id: string, u: User)
    requires p.user.isPublic != Some(true)
    requires !IsOwn(Some(u), id) && !IsFriend(Some(u), id)
    ensures !CanSeePosts(p, id, Some(u))
    ensures !ShowsPrivateNotice(p, Connected, id, Some(u))
  {
  }

  /** The evidently intended refetch, with the updated user: the new friend's posts are requested and no notice is shown. */
  lemma FreshRefetchShowsPosts(p: ProfileData, id: string, u: User)
    ensures CanSeePosts(p, id, Some(AddedFriend(u, id)))
    ensures !ShowsPrivateNotice(p, Connected, id, Some(AddedFriend(u, id)))
  {
    FriendSeesEverything(p, id, Some(AddedFriend(u, id)));
  }

  /** Adding a friend keeps every earlier friend, in order, and adds exactly the new one. */
  lemma AddFriendKeepsFriends(u: User, id: string)
    ensures var v := AddedFriend(u, id);
      v.friends.value[..|u.friends.GetOr([])|] == u.friends.GetOr([]) &&
      v.friends.value[|u.friends.GetOr([])|] == id &&
      |v.friends.value| == |u.friends.GetOr([])| + 1 &&
      IsFriend(Some(v), id)
  {
  }
}
