# SocialPlane client: a Dafny model of its event-handler rules

SocialPlane's web client is a React application. Almost all of it fetches data and
renders it. The rules it does contain sit in its event handlers, and this project
models those: the story viewer, the two like buttons, the daily question quota, the
feed composer and comment drawer, the profile tabs and handle, another user's
profile, the leaderboard, the settings dialog with its language one-time code, the
new-post dialog, the session store kept in local storage, and the payment-hour gate
of the subscription page.

Each handler is one atomic transition. A component's `useState` fields are the
fields of a Dafny `class`, and each handler is a `method` on it whose `modifies`
clause names the fields it sets and whose `ensures` clauses state the whole new
state. Every awaited backend call (`api.get`, `api.post`, `api.put`, `api.delete`,
`/upload`) is an input of type `Reply<T>`: either `Ok(data)` or `Fail(err)`, where
`err` carries the HTTP status and the server's message. A browser dialog's answer
(`window.confirm`) and the results of foreign SDKs are inputs too. The pure parts
stay pure: lookup tables, predicates, string helpers and list filters are
functions, and lemmas about those functions state what the pages promise.

JavaScript semantics are written out wherever a rule depends on them:

- Truthiness and `||` on strings: absent and `""` are falsy (`Entities.Truthy`).
- `??` defaults only a missing value.
- `undefined === undefined` holds, and two absent ids compare equal.
- `String(undefined)` is `"undefined"` and `String(null)` is `"null"`.
- `{...null}` is the empty object.
- `JSON.stringify(null)` is the text `null`, which parses back to `null`.
  `JSON.stringify(undefined)` is stored by `setItem` as the text `"undefined"`,
  which does not parse. `Entities.UserValue` keeps the two apart.
- A state update reruns every effect that depends on the changed value, and a
  closure keeps the values of the render that created it.
- `trim` and `\s` use the white space and line terminators of ECMA-262.
- A regular expression without `g` replaces its leftmost match only. In it, `.`
  refuses line terminators and `.*` is greedy.

Modules:

- `Optional`: the `Option` type used for JavaScript's `null` and `undefined`.
- `Text`: `trim`, white space, `startsWith`, `endsWith`, `includes` and ASCII
  lower case.
- `Entities`: the backend records (user, post, comment, user reference, media
  file), the `null`/`undefined`/object distinction for a user value, and the reply
  type.
- `Plans`: the plan badge colour table. Questions.jsx and Leaderboard.jsx each
  carry an identical copy; here it is defined once.
- `EmailMask`: the address mask shared by UserProfile.jsx and Leaderboard.jsx.
- One module per modelled source file: `Stories`, `Questions`, `PostDetail`,
  `Reels`, `Home`, `Profile`, `UserProfile`, `Leaderboard`, `Settings`,
  `CreatePost`, `Session` and `Subscription`.

## Model

| member | source | states |
|---|---|---|
| Optional.Option.GetOr | src/pages/Profile.jsx:16-17 | `x ?? d` / `x \|\| d` for an always-truthy value: the value when present, the default when absent |
| Entities.FirstTruthy | src/pages/Profile.jsx:24 | `a \|\| b`: `a` when it is truthy, `b` otherwise |
| Entities.UserKey | src/pages/Profile.jsx:24 | the user's identifier is `_id` when that is truthy, otherwise `id` |
| Entities.UserValue.AsOption | src/context/AuthContext.jsx:104-107 | `null` and `undefined` are both nobody in memory; an object is that user |
| Entities.RefString | src/pages/Home.jsx:326-327 | `String(ref?._id \|\| ref?.id \|\| ref)`: a bare id prints as itself, `null` as "null", an absent reference as "undefined" |
| Entities.KeyString | src/pages/Home.jsx:329 | `String(x)` of an identifier that may be missing: the identifier itself, or "undefined" when it is absent |
| Entities.RefDbId | src/pages/Home.jsx:271 | `ref?._id`: only a populated author object can carry an `_id`; a bare id string, `null` and a missing author give `undefined` |
| Entities.KindFromMime | src/components/StoryList.jsx:39 | the media kind is video exactly when the MIME type starts with `video`, otherwise image |
| Entities.ErrorText | src/pages/Questions.jsx:104 | `err.response?.data?.message \|\| fallback`: the server's message when it is non-empty, the fallback otherwise |
| Text.TrimStart | src/pages/Questions.jsx:86 | the result is a suffix of the input; everything dropped is white space; it does not start with white space |
| Text.TrimEnd | src/pages/Questions.jsx:86 | the result is a prefix of the input; everything dropped is white space; it does not end with white space |
| Text.Trim | src/pages/Questions.jsx:86 | `trim`: no longer than the input, and a non-empty result neither starts nor ends with white space |
| Text.TrimEmptyIffBlank | src/pages/Questions.jsx:86 | `!s.trim()` holds exactly when every character of `s` is white space: both directions |
| Text.Lower | src/pages/Profile.jsx:126 | same length as the input, and each character is lower-cased on its own (ASCII letters) |
| Text.LowerAppend | src/pages/Profile.jsx:126 | lower-casing distributes over concatenation |
| Text.LowerKeepsSpace | src/pages/Profile.jsx:126 | a character is white space exactly when its lower-case form is |
| Stories.Open | src/components/StoryList.jsx:50-53 | handleStoryClick: the group is selected at index 0 (its properties are in the lemmas below) |
| Stories.Next | src/components/StoryList.jsx:60-67 | nextStory: the next story of the group, or closed after the last one; NextAdvancesOrCloses states it |
| Stories.Step | src/components/StoryList.jsx:50-67 | a tap on a group opens it, a tap outside closes, a tap on the story advances; StepKeepsInBounds states its invariant |
| Stories.Run | src/components/StoryList.jsx:50-67 | a sequence of taps applied in order; RunKeepsInBounds states its invariant |
| Stories.Advance | src/components/StoryList.jsx:60-67 | n taps on the story; WalkThrough and AdvanceSplit state it |
| Stories.InBounds | src/components/StoryList.jsx:170 | the invariant: an open viewer's index points at a story of its group (or 0), a closed one is at 0 |
| Stories.NextAdvancesOrCloses | src/components/StoryList.jsx:60-67 | nothing open: nothing changes; before the last story: same group, index exactly one more; at or past the last: closed (selection cleared, index 0); never wraps |
| Stories.StepKeepsInBounds | src/components/StoryList.jsx:50-67 | opening, closing and advancing each keep the index inside the open group (line 170 reads `stories[currentStoryIndex]`) |
| Stories.RunKeepsInBounds | src/components/StoryList.jsx:50-67 | any sequence of taps from an in-bounds viewer ends in bounds |
| Stories.WalkThrough | src/components/StoryList.jsx:50-67 | opening a group and tapping k times shows story k; one tap after the last story closes the viewer |
| Stories.AdvanceSplit | src/components/StoryList.jsx:60-67 | n+1 taps are n taps followed by one more |
| Stories.SegmentWidth | src/components/StoryList.jsx:161 | a progress segment is at most 100% wide |
| Stories.ProgressBar | src/components/StoryList.jsx:161 | one segment per story: 100% before the current index, 50% at it, 0% after it |
| Stories.ProgressFillsFromLeft | src/components/StoryList.jsx:161 | widths never increase from left to right; the current segment is the only half-filled one |
| Stories.ProgressTotal | src/components/StoryList.jsx:161 | the widths add up to 100 per story passed plus 50 for the current one |
| Stories.UploadStory | src/components/StoryList.jsx:26-48 | no file: nothing is sent; a failed upload: no story is created; otherwise the story has the uploaded URL and the kind from the MIME type, and the tray is refreshed exactly when the creation succeeds |
| Stories.StoryList.constructor | src/components/StoryList.jsx:8-10 | empty tray and a closed viewer |
| Stories.StoryList.FetchStories | src/components/StoryList.jsx:17-24 | the tray is replaced on success and kept on failure; the viewer is untouched |
| Stories.StoryList.HandleStoryClick | src/components/StoryList.jsx:50-53 | the group is selected and the index is 0 |
| Stories.StoryList.CloseStory | src/components/StoryList.jsx:55-58 | the selection is cleared and the index is 0 |
| Stories.StoryList.NextStory | src/components/StoryList.jsx:60-67 | the new viewer state is `Next` of the old one, whose behaviour NextAdvancesOrCloses states |
| Stories.StoryList.CurrentStory | src/components/StoryList.jsx:170 | an open, in-bounds viewer on a non-empty group shows the story at the current index; a closed viewer shows none |
| Plans.PlanColor | src/pages/Leaderboard.jsx:47-55 | FREE, BRONZE, SILVER and GOLD get their colours; a missing or unknown plan gets FREE's |
| Plans.UnknownPlanLooksFree | src/pages/Questions.jsx:155-163 | a missing or unknown plan is drawn exactly like FREE |
| Questions.CurrentPlan | src/pages/Questions.jsx:27 | a missing or empty plan counts as FREE |
| Questions.DailyLimit | src/pages/Questions.jsx:20-28 | 1, 5, 10 and unlimited for FREE, BRONZE, SILVER and GOLD; a name outside the table has no limit |
| Questions.CanAsk | src/pages/Questions.jsx:29 | `questionsToday < dailyLimit`: always below Infinity, never below `undefined`; AskingQuota and QuotaIsMonotone state it |
| Questions.AskingQuota | src/pages/Questions.jsx:20-29 | asking is allowed exactly when fewer than 1/5/10 questions were asked today on FREE (or no plan)/BRONZE/SILVER; always on GOLD; never on an unknown plan |
| Questions.QuotaIsMonotone | src/pages/Questions.jsx:29 | a user who may not ask now may not ask after asking more |
| Questions.QuestionRejected | src/pages/Questions.jsx:86 | `!questionText.trim() \|\| questionText.length < 10`; QuestionRule states it |
| Questions.QuestionRule | src/pages/Questions.jsx:86-89 | a question is rejected exactly when it is blank or its untrimmed length is under 10 |
| Questions.AskErrorText | src/pages/Questions.jsx:101-105 | HTTP 429 shows the daily-limit message; any other failure shows the server's message or the fallback |
| Questions.Toggled | src/pages/Questions.jsx:54-65 | the question's membership flips and no other membership changes |
| Questions.ToggleTwiceRestores | src/pages/Questions.jsx:54-65 | toggling the same question twice restores the set |
| Questions.QuestionsPage.constructor | src/pages/Questions.jsx:10-17 | empty text, no error, zero questions today, empty answer caches and nothing expanded |
| Questions.QuestionsPage.CanAskNow | src/pages/Questions.jsx:27-29 | `canAsk`: the questions asked today are below the daily limit of the user's plan, FREE when there is none |
| Questions.QuestionsPage.HandleAskQuestion | src/pages/Questions.jsx:76-109 | a request is sent exactly when the quota allows and the text is not rejected; over the quota nothing changes and the plans page opens if the user confirms; a rejected text sets only the error; success clears the text and counts exactly one more question; a failure keeps the text and shows AskErrorText; loading ends |
| Questions.QuestionsPage.ToggleAnswers | src/pages/Questions.jsx:54-65 | the expanded set becomes Toggled of the old one; answers are fetched exactly when expanding a question with nothing cached; nothing else changes |
| Questions.QuestionsPage.FetchAnswers | src/pages/Questions.jsx:45-52 | loaded answers are cached under their question; a failure changes nothing |
| Questions.QuestionsPage.HandleSubmitAnswer | src/pages/Questions.jsx:111-123 | a missing or blank answer is not sent; an accepted one clears that answer box only and asks for a refetch |
| PostDetail.DbIdOf | src/components/PostDetailModal.jsx:14 | `user?._id`: `undefined` when nobody is signed in, the user's `_id` otherwise |
| PostDetail.IdOf | src/components/PostDetailModal.jsx:14 | `user?.id`: `undefined` when nobody is signed in, the user's `id` otherwise |
| PostDetail.IsOwnerAsWritten | src/components/PostDetailModal.jsx:14 | the owner check as written, with `===` holding between two `undefined`s |
| PostDetail.IsOwner | src/components/PostDetailModal.jsx:14 | the corrected owner check: the author's `_id` must be defined; IsOwnerMeaning states it |
| PostDetail.IsOwnerAsWrittenAdmitsStranger | src/components/PostDetailModal.jsx:14 | the written owner check accepts a user `{id: "u1"}` on a post whose author is the bare id "u2" |
| PostDetail.IsOwnerMeaning | src/components/PostDetailModal.jsx:14 | the corrected check holds exactly when the author's `_id` is defined and equals the user's `_id` or `id`; it agrees with the written check whenever the author has an `_id` |
| PostDetail.RemoveAll | src/components/PostDetailModal.jsx:22 | the id is gone, every other id keeps its membership, and a list without the id is returned unchanged |
| PostDetail.ToggleLikes | src/components/PostDetailModal.jsx:21-23 | the user's membership flips; no other membership changes; an absent id is appended at the end |
| PostDetail.IdlessLikeAppendsUndefined | src/components/PostDetailModal.jsx:20-23 | a user without ids likes with the value `undefined`: it is appended, even to a list holding the text "undefined" |
| PostDetail.RemoveAllCounts | src/components/PostDetailModal.jsx:22 | filtering removes every copy of the id and nothing else, counted with multiplicity |
| PostDetail.RemoveSingle | src/components/PostDetailModal.jsx:22 | removing a present id from a duplicate-free list removes exactly one entry and keeps it duplicate-free |
| PostDetail.ToggleKeepsNoDup | src/components/PostDetailModal.jsx:21-23 | a duplicate-free like list stays duplicate-free and its length changes by exactly one |
| PostDetail.RemoveAllAppend | src/components/PostDetailModal.jsx:22 | filtering distributes over concatenation, so the remaining ids keep their order |
| PostDetail.ToggleTwice | src/components/PostDetailModal.jsx:21-23 | liking twice gives back the same likes: the very list when the user had not liked, the same multiset when they had |
| PostDetail.PostDetailModal.constructor | src/components/PostDetailModal.jsx:7-9 | the local post is the given post and the comment box is empty |
| PostDetail.PostDetailModal.HandleLike | src/components/PostDetailModal.jsx:16-29 | after an accepted like, only `likes` changes, becoming ToggleLikes of the user's `_id \|\| id` compared with `===` (the value `undefined` for a user without ids); a failure or a signed-out user changes nothing |
| PostDetail.PostDetailModal.HandleComment | src/components/PostDetailModal.jsx:31-55 | a blank comment is not sent; an accepted one appends exactly one comment with the typed text and the user's name and avatar after the earlier ones, and clears the box; otherwise nothing changes |
| Reels.InitialCount | src/pages/Reels.jsx:59 | the count starts at the number of likes, or 0 when the list is absent |
| Reels.InitiallyLiked | src/pages/Reels.jsx:62-67 | liked starts true exactly when there is a user and some like id equals `String(user._id \|\| user.id)` |
| Reels.Optimistic | src/pages/Reels.jsx:96-97 | the flag flips, and the count goes one down if it was liked and one up if not |
| Reels.Consistent | src/pages/Reels.jsx:58-59 | the invariant of the like state: the count is never negative and is at least one while liked; it holds of the initial state (not liked, the list's length) and OptimisticKeepsConsistent shows it is kept |
| Reels.OptimisticTwice | src/pages/Reels.jsx:92-100 | two accepted toggles give back the original flag and count |
| Reels.OptimisticKeepsConsistent | src/pages/Reels.jsx:96-97 | a count that is non-negative, and at least one while liked, stays so |
| Reels.AgreesWithListToggle | src/pages/Reels.jsx:96-97 | on a duplicate-free like list, the optimistic (liked, count) is exactly the membership and length after toggling the id in the list |
| Reels.ReelItem.constructor | src/pages/Reels.jsx:58-67 | the state starts as InitiallyLiked and InitialCount, which is consistent |
| Reels.ReelItem.ToggleLike | src/pages/Reels.jsx:86-107 | without a user only the login prompt appears and nothing changes; otherwise the optimistic state is shown, kept on success and restored exactly on failure; the state stays consistent |
| Home.CanPost | src/pages/Home.jsx:25-26 | `friendCount > 0`: posting needs a user with at least one friend |
| Home.HasVideoExtension | src/pages/Home.jsx:122 | `/\.(mp4\|webm\|mov\|mkv)$/i`: the lower-cased URL ends in one of the four extensions |
| Home.IsVideoUrl | src/pages/Home.jsx:121-123 | a video extension or a `/video/` path; the examples and the two lemmas below state it |
| Home.VideoUrlExamples | src/pages/Home.jsx:121-123 | `a.MP4` and `x.WebM` are videos in any case; a `/video/` path is a video whatever its extension |
| Home.QueryHidesExtension | src/pages/Home.jsx:121-123 | the extension must end the URL: `a.mp4?v=1` is not a video |
| Home.ImageUrlIsNotVideo | src/pages/Home.jsx:121-123 | `a.png` is not a video |
| Home.ExtensionIgnoresCase | src/pages/Home.jsx:122 | lower-casing the URL does not change whether it has a video extension |
| Home.VideoUrlKeepsUnderPrefix | src/pages/Home.jsx:122 | a video URL stays a video URL under any prefix |
| Home.CanDeleteComment | src/pages/Home.jsx:325-329 | `String` of the user's id equals `String` of the comment author's or the post author's; the two rules below state it |
| Home.AuthorKey | src/pages/Home.jsx:326-327 | the identifier a reference names: a populated author's truthy `_id`, else its truthy `id`; a bare id itself; nothing for `null`, `undefined` or an id-less object |
| Home.RefStringNames | src/pages/Home.jsx:326-329 | a printed reference equals an identifier exactly when the reference names it, unless the identifier is "undefined", "null" or "[object Object]" |
| Home.CommentDeleteRule | src/pages/Home.jsx:325-329 | for every signed-in user with an id: the delete control shows exactly when the user is the comment's author or the post's author (both directions) |
| Home.AnonymousCommentDeleteRule | src/pages/Home.jsx:325-329 | without a user id, the control shows exactly on comments whose author, or whose post's author, is missing or is the text "undefined" |
| Home.ShowDeletePostAsWritten | src/pages/Home.jsx:271 | the post delete check as written, with `===` holding between two `undefined`s |
| Home.ShowDeletePost | src/pages/Home.jsx:271 | the corrected check: the author's `_id` must be defined; ShowDeletePostMeaning states it |
| Home.ShowDeletePostAsWrittenAdmitsStranger | src/pages/Home.jsx:271 | the written check shows the delete button to a user without `_id` on a post whose author is a bare id |
| Home.ShowDeletePostMeaning | src/pages/Home.jsx:271 | the corrected check holds exactly when the author's `_id` is defined and equals the user's `_id`; it agrees with the written one whenever the author has an `_id` |
| Home.HomeFeed.constructor | src/pages/Home.jsx:11-31 | empty feed while loading, empty composer of type "post", no file, no open comments |
| Home.HomeFeed.FetchPosts | src/pages/Home.jsx:39-48 | the feed is replaced on success and kept on failure; loading ends; nothing else changes |
| Home.HomeFeed.HandleFileSelect | src/pages/Home.jsx:51-58 | a chosen file is kept with its preview URL and its kind from the MIME type; no file changes nothing |
| Home.HomeFeed.ClearFile | src/pages/Home.jsx:60-65 | file, preview and kind are cleared; nothing else changes |
| Home.HomeFeed.SetReel | src/pages/Home.jsx:206 | the type is "reel" when checked and "post" otherwise |
| Home.HomeFeed.HandlePost | src/pages/Home.jsx:67-99 | a blank caption without a file sends nothing; a failed upload sends no post; the post carries the caption, the type and the uploaded URL; after success the caption is cleared, the type is "post", the file is cleared and the feed refetched; otherwise the composer is kept; uploading ends |
| Home.HomeFeed.ToggleComments | src/pages/Home.jsx:125-133 | the open post closes; another post opens with an empty comment box and a hidden picker; at most one post is open |
| Home.HomeFeed.HandleComment | src/pages/Home.jsx:135-148 | a blank comment is not sent; an accepted one clears the box and the picker and refetches; otherwise nothing changes |
| Home.HomeFeed.OnEmojiClick | src/pages/Home.jsx:165-167 | the emoji is appended to the comment text |
| Home.HomeFeed.ToggleEmojiPicker | src/pages/Home.jsx:372 | the picker's visibility flips |
| Profile.FilteredPosts | src/pages/Profile.jsx:83-87 | a post is shown exactly when it is in the list and belongs on the tab |
| Profile.TabsPartition | src/pages/Profile.jsx:83-87 | the posts tab and the reels tab split the list: together they hold every post with its multiplicity |
| Profile.OtherTabShowsAll | src/pages/Profile.jsx:83-87 | any other tab shows the list unchanged |
| Profile.RemovePost | src/pages/Profile.jsx:47 | a post survives exactly when its id differs from the deleted one |
| Profile.RemovePostKeepsOrder | src/pages/Profile.jsx:47 | deleting distributes over concatenation, so the other posts keep their order |
| Profile.RemoveAbsentPost | src/pages/Profile.jsx:47 | a list without that id is kept as it is |
| Profile.CollapseFrom | src/pages/Profile.jsx:126 | the result holds no white space and is no longer than the input; outside a run of white space it is empty only for the empty input |
| Profile.CollapseSpaces | src/pages/Profile.jsx:126 | `replace(/\s+/g, '_')` leaves no white space and is empty only for the empty input |
| Profile.CollapseKeepsWords | src/pages/Profile.jsx:126 | a text without white space is kept as it is |
| Profile.CollapseSkipsRun | src/pages/Profile.jsx:126 | inside a run, the rest of the run is dropped |
| Profile.CollapseAfterWord | src/pages/Profile.jsx:126 | a text that does not start with white space collapses alike inside and outside a run |
| Profile.CollapseWord | src/pages/Profile.jsx:126 | a leading word is copied as it is and the rest is collapsed on its own |
| Profile.CollapseRun | src/pages/Profile.jsx:126 | for any word, any non-empty run of white space and any rest not starting with white space: the run becomes one `_` and the rest is collapsed on its own |
| Profile.Handle | src/pages/Profile.jsx:126 | the handle is never empty; a missing or empty name gives `user`; otherwise it holds no white space and is no longer than the name |
| Profile.LowerKeepsWords | src/pages/Profile.jsx:126 | lower-casing keeps a word free of white space and a run blank, both directions |
| Profile.HandleSplits | src/pages/Profile.jsx:126 | the handle of any name, a word at a time: word, run and rest give the lower-cased word, one `_` and the collapsed lower-cased rest |
| Profile.HandleOfOneWord | src/pages/Profile.jsx:126 | a name without white space is only lower-cased |
| Profile.LowerExample | src/pages/Profile.jsx:126 | `"A  B"` lower-cases to `"a  b"` |
| Profile.CollapseWordsExample | src/pages/Profile.jsx:126 | `"a  b"` collapses to `"a_b"` |
| Profile.CollapseBlankExample | src/pages/Profile.jsx:126 | three spaces collapse to one `_` |
| Profile.HandleOfTwoWords | src/pages/Profile.jsx:126 | the handle of `"A  B"` is `"a_b"` |
| Profile.HandleOfBlankOrMissing | src/pages/Profile.jsx:126 | a name of spaces gives `_`; no name or an empty one gives `user` |
| Profile.ProfilePage.constructor | src/pages/Profile.jsx:9-18 | no posts while loading, the posts tab, the editor closed, the name and bio fields from the user |
| Profile.ProfilePage.SyncWithUser | src/pages/Profile.jsx:22-41 | the effect rerun with the session user `u` (on mount, and after the `updateUser` of lines 64 and 76): the page's user becomes `u`; posts are fetched exactly when `u` has a truthy `_id \|\| id`, and then loaded on success; the edit fields are reset from `u`; with nobody signed in they are kept |
| Profile.ProfilePage.SelectTab | src/pages/Profile.jsx:190-200 | the chosen tab becomes active |
| Profile.ProfilePage.Shown | src/pages/Profile.jsx:83-87 | the posts listed under the active tab are FilteredPosts of the loaded posts; TabsPartition states what each tab keeps |
| Profile.ProfilePage.HandleDeletePost | src/pages/Profile.jsx:43-51 | the request is sent exactly when confirmed; a confirmed, accepted delete removes that post and keeps the others in order; otherwise the list is unchanged |
| Profile.ProfilePage.SetEditing | src/pages/Profile.jsx:137-140 | Edit opens and Cancel closes the editor |
| Profile.ProfilePage.HandleImageUpload | src/pages/Profile.jsx:53-70 | no file does nothing; an uploaded URL is saved as the avatar and the returned user goes to the session only when both calls succeed |
| Profile.ProfilePage.HandleUpdateProfile | src/pages/Profile.jsx:72-81 | the update is sent exactly when the name is not blank; an accepted update hands the returned user to the session and closes the editor |
| UserProfile.IsFriend | src/pages/UserProfile.jsx:28 | `currentUser?.friends?.includes(id)` |
| UserProfile.IsOwn | src/pages/UserProfile.jsx:33 | `id === currentUser?.id` |
| UserProfile.CanSeePosts | src/pages/UserProfile.jsx:33 | the posts are requested for a public profile, one's own, or a friend's; FriendSeesEverything, StaleRefetchHidesProfile and FreshRefetchShowsPosts state it |
| UserProfile.ShowsPrivateNotice | src/pages/UserProfile.jsx:126 | the notice shows for a private profile that is not connected and not one's own |
| UserProfile.ShowsAddFriend | src/pages/UserProfile.jsx:106 | the add-friend button is shown on every profile but one's own |
| UserProfile.AddFriendDisabled | src/pages/UserProfile.jsx:109 | the button is disabled once connected |
| UserProfile.AddedFriend | src/pages/UserProfile.jsx:48-50 | the user with `id` appended to the friends kept so far, and nothing else changed; the id is then a friend |
| UserProfile.FriendsShown | src/pages/UserProfile.jsx:97 | a non-empty friends list gives its length, else `friendsCount`, else 0 |
| UserProfile.FriendSeesEverything | src/pages/UserProfile.jsx:28-36 | a friend's fetch requests the posts, and once connected the friend never sees the private notice |
| UserProfile.NoticeAndFetchDisagree | src/pages/UserProfile.jsx:33 | the notice reads `isPrivate` and the fetch reads `isPublic`: a stranger on a non-public profile sees neither posts nor the notice |
| UserProfile.UserProfilePage.constructor | src/pages/UserProfile.jsx:10-14 | no profile, no posts, loading, no error, no request |
| UserProfile.UserProfilePage.FetchProfile | src/pages/UserProfile.jsx:16-42 | with the `currentUser` its closure sees: the profile is stored on success; a friend becomes connected; posts are requested exactly for a public, own or friend's profile; either failure shows the server's message or the fallback; loading ends |
| UserProfile.UserProfilePage.HandleAddFriend | src/pages/UserProfile.jsx:44-56 | an accepted request marks the profile connected, so the add-friend button (lines 106-109) is disabled and no profile shows the private notice, and hands the session AddedFriend of the user; whether the button shows at all is unchanged; the profile is then refetched with the user from before the update, so posts are requested by the old gate; without a user nothing follows the status change; a failure changes nothing |
| UserProfile.StaleRefetchHidesProfile | src/pages/UserProfile.jsx:16-52 | that refetch, on a profile that is not public, for a user not yet a friend: no posts are requested, and (now connected) no private notice shows |
| UserProfile.FreshRefetchShowsPosts | src/pages/UserProfile.jsx:33 | fetching with the updated user instead requests the posts and shows no notice |
| UserProfile.AddFriendKeepsFriends | src/pages/UserProfile.jsx:46-50 | adding a friend keeps every earlier friend in order and adds exactly the new one, at the end |
| EmailMask.RunEnd | src/pages/UserProfile.jsx:89 | the first line terminator at or after a position, or the end: the stretch `.` can cross |
| EmailMask.LastAt | src/pages/UserProfile.jsx:89 | the last `@` in a range, or none when the range has none |
| EmailMask.MatchFrom | src/pages/UserProfile.jsx:89 | where greedy `.*` stops: a match start with the last reachable `@`, or no match at all from that start |
| EmailMask.FindMatch | src/pages/UserProfile.jsx:89 | the leftmost start at which the pattern matches, with its greedy end; no match when none starts anywhere |
| EmailMask.Mask | src/pages/Leaderboard.jsx:148 | the leftmost match keeps its first three characters and the rest up to `@` becomes `***`; without a match the address is shown as it is |
| EmailMask.MaskLongLocalPart | src/pages/UserProfile.jsx:89 | with one `@`, a local part of at least three characters and no line breaks, the display is the first three characters, `***` and the domain from `@` |
| EmailMask.MaskShortLocalPart | src/pages/UserProfile.jsx:89 | with one `@` and a local part under three characters, the address is unchanged |
| EmailMask.MaskLongExample | src/pages/Leaderboard.jsx:148 | `alice@x.io` is shown as `ali***@x.io` |
| EmailMask.MaskShortExample | src/pages/Leaderboard.jsx:148 | `al@x.io` is shown unchanged |
| Leaderboard.GetRankIcon | src/pages/Leaderboard.jsx:40-45 | trophy exactly for rank 1, the silver medal exactly for 2, the bronze medal exactly for 3, no icon for any other rank |
| Leaderboard.Emphasised | src/pages/Leaderboard.jsx:118-119 | bold, larger text for `rank <= 3`; MedalsAreEmphasised states it |
| Leaderboard.MedalsAreEmphasised | src/pages/Leaderboard.jsx:118-119 | every medalled rank is emphasised; for positive ranks the two coincide |
| Leaderboard.Highlighted | src/pages/Leaderboard.jsx:110 | `leader._id === user?.id`, with two absent ids equal; HighlightMeaning states it |
| Leaderboard.HighlightMeaning | src/pages/Leaderboard.jsx:110 | a row with an id is highlighted exactly when it is the signed-in user's `id` |
| Leaderboard.RowOf | src/pages/Leaderboard.jsx:110-158 | a medalled row is bold; its badge colour is PlanColor of its plan; its address is masked; its highlight is the own-row rule |
| Leaderboard.FetchesOwnRank | src/pages/Leaderboard.jsx:15 | `user?.id` is truthy: the own rank is requested only for a signed-in user with a non-empty `id` |
| Settings.InitialPublic | src/components/SettingsModal.jsx:13 | the user's privacy value, and public when it is missing |
| Settings.InitialLang | src/components/SettingsModal.jsx:16 | the user's language when it is non-empty, else `en`; never empty |
| Settings.NormalisePhone | src/components/SettingsModal.jsx:92 | a number containing `+` anywhere is kept; any other gets the `+91` prefix; the result contains `+` |
| Settings.NormalisePhoneIdempotent | src/components/SettingsModal.jsx:92 | normalising twice is normalising once |
| Settings.Confirms | src/components/SettingsModal.jsx:100-105 | the phone confirmation accepts by its own verdict, the demo stand-in accepts `123456` alone |
| Settings.UserChanges | src/components/SettingsModal.jsx:31-38 | the session's `user` becomes a different value, so the `[isOpen, user]` effect runs again: a new object always, or nobody replacing a user |
| Settings.SettingsModal.constructor | src/components/SettingsModal.jsx:10-29 | the main tab, privacy and language from the user, nothing pending, type mobile, no confirmation, an empty transfer form |
| Settings.SettingsModal.Open | src/components/SettingsModal.jsx:31-38 | the effect, on opening and on every change of the session's user: back to the main tab, with privacy and language taken from the user |
| Settings.SettingsModal.SelectTab | src/components/SettingsModal.jsx:205-221 | the chosen tab becomes active |
| Settings.SettingsModal.TogglePrivacy | src/components/SettingsModal.jsx:55-65 | on success the returned user goes to the session; when that changes the user the effect of lines 31-38 reruns: main tab, and privacy and language from the returned user (public when it has none), so the switch shows the flipped value when the server returns it; otherwise the switch just flips; a failure changes nothing |
| Settings.SettingsModal.HandleLanguageChange | src/components/SettingsModal.jsx:67-118 | the current language changes nothing; French uses e-mail and shows the code panel only after the request succeeds; another language without a phone never shows it; with a phone, the normalised number is used and the panel shows when the code was sent or demo mode took over |
| Settings.SettingsModal.SetOtp | src/components/SettingsModal.jsx:279 | the typed code is kept |
| Settings.SettingsModal.VerifyLanguageOtp | src/components/SettingsModal.jsx:120-139 | success (the confirmation accepts the code for SMS, and the server accepts) closes the panel, clears the code and hands the session a new user with the pending language; with the demo confirmation of lines 100-105 that happens exactly for the code `123456` and a server success, with the phone one exactly when the phone accepts and the server does, by e-mail exactly on server success, and never without a confirmation; the effect of lines 31-38 then reruns: main tab, the user's privacy, and the language that user has (the pending one when non-empty); failure leaves tab, privacy, language, panel and code as they were; not busy afterwards |
| Settings.SettingsModal.HandleTransfer | src/components/SettingsModal.jsx:141-151 | a completed transfer clears the form; a refused one keeps it |
| CreatePost.KindAfterFileChange | src/components/CreatePostModal.jsx:17-26 | `image/` gives image, `video/` gives video, any other MIME type keeps the previous kind |
| CreatePost.PostTypeFor | src/components/CreatePostModal.jsx:53 | the type is "reel" exactly for video, and "post" for image |
| CreatePost.VideoFileMakesReel | src/components/CreatePostModal.jsx:17-53 | a `video/` file picked last is always published as a reel |
| CreatePost.CreatePostModal.constructor | src/components/CreatePostModal.jsx:6-10 | empty caption, no media or preview, type image, not loading |
| CreatePost.CreatePostModal.SetCaption | src/components/CreatePostModal.jsx:163 | the typed caption is kept |
| CreatePost.CreatePostModal.HandleFileChange | src/components/CreatePostModal.jsx:15-26 | no file changes nothing; a file is kept and the type becomes KindAfterFileChange |
| CreatePost.CreatePostModal.PreviewLoaded | src/components/CreatePostModal.jsx:30-32 | the data URL becomes the preview |
| CreatePost.CreatePostModal.RemovePreview | src/components/CreatePostModal.jsx:142 | media and preview are cleared |
| CreatePost.CreatePostModal.HandleSubmit | src/components/CreatePostModal.jsx:36-73 | without media nothing is uploaded and nothing changes; the post carries the caption, the uploaded URL and PostTypeFor of the type; a created post clears caption, media and preview and closes the dialog; loading ends |
| Session.Stringify | src/context/AuthContext.jsx:46 | a user is stored as its JSON, `null` as the text "null", `undefined` as the text "undefined" |
| Session.Parse | src/context/AuthContext.jsx:27-31 | stored JSON parses back; the text `null` is null; other plain text fails |
| Session.ParseStringify | src/context/AuthContext.jsx:25-46 | a stored user or `null` parses back to itself; a stored `undefined`, and only that, does not parse |
| Session.Startup | src/context/AuthContext.jsx:16-35 | without both a token and a user nothing changes; otherwise the stored user is restored, or both keys are removed if it does not parse |
| Session.SignIn | src/context/AuthContext.jsx:44-48 | the token and the stringified user are stored, no other key changes, and the user (nobody for `null` or `undefined`) is in memory |
| Session.SignOut | src/context/AuthContext.jsx:86-90 | both keys are removed, every other key is kept, and nobody is signed in |
| Session.Update | src/context/AuthContext.jsx:104-107 | the in-memory user becomes the argument (nobody for `null` or `undefined`) and the stored user its stringified form; every other key is kept |
| Session.ReloadAfterSignIn | src/context/AuthContext.jsx:16-48 | a page load after signing in with a user and a token brings that user back, with storage unchanged |
| Session.ReloadAfterSignInWithoutUser | src/context/AuthContext.jsx:16-48 | a token response without a `user` property stores "undefined", and the next page load removes both keys |
| Session.ReloadAfterSignInWithNullUser | src/context/AuthContext.jsx:16-48 | a token response whose `user` is `null` stores "null": the next page load keeps both keys and the token, with nobody signed in |
| Session.ReloadAfterSignOut | src/context/AuthContext.jsx:16-35 | after logout a page load stays signed out |
| Session.ReloadAfterUpdate | src/context/AuthContext.jsx:16-35 | after updateUser, with a token kept, a page load brings back the updated user |
| Session.ReloadAfterUpdateToNobody | src/context/AuthContext.jsx:16-107 | after updateUser with `null` or `undefined`, with a token kept, a page load is signed out; `null` keeps both keys, `undefined` removes them |
| Session.AuthProvider.constructor | src/context/AuthContext.jsx:9-10 | nobody signed in, loading |
| Session.AuthProvider.CheckUserLoggedIn | src/context/AuthContext.jsx:16-35 | the new state is Startup of the old; loading ends |
| Session.AuthProvider.StoreIfToken | src/context/AuthContext.jsx:44-48 | a truthy token signs in; otherwise storage and user are unchanged |
| Session.AuthProvider.Login | src/context/AuthContext.jsx:37-51 | a message mentioning OTP asks for the code and stores nothing, even with a token; otherwise the token rule applies; a failed request throws and changes nothing |
| Session.AuthProvider.GoogleLogin | src/context/AuthContext.jsx:53-72 | the token rule without the OTP check; a failure is rethrown and changes nothing |
| Session.AuthProvider.VerifyOtp | src/context/AuthContext.jsx:74-84 | the token rule, and the response is returned; a failure changes nothing |
| Session.AuthProvider.Logout | src/context/AuthContext.jsx:86-90 | the new state is SignOut of the old |
| Session.AuthProvider.UpdateUser | src/context/AuthContext.jsx:104-107 | the new state is Update of the old with the argument |
| Session.AuthProvider.FetchUserData | src/context/AuthContext.jsx:92-102 | the fetched user replaces the session's and is returned; a failure returns null and changes nothing |
| Subscription.DearerPlansAllowMore | src/pages/Subscription.jsx:6-11 | the plans are priced 0 < 100 < 300 < 1000, every plan on sale has a question quota, and a dearer plan never allows fewer questions |
| Subscription.InPaymentWindow | src/pages/Subscription.jsx:26 | payments are refused before 10 and from 11 on; WindowIsTenOClock states it |
| Subscription.WindowIsTenOClock | src/pages/Subscription.jsx:26 | for a whole hour, payment is allowed exactly at 10 |
| Subscription.IsCurrent | src/pages/Subscription.jsx:123 | `user?.subscription?.plan === plan.name` |
| Subscription.ButtonDisabled | src/pages/Subscription.jsx:123 | the button is off while a payment starts and on the current plan; ActiveIsDisabled states it |
| Subscription.ButtonLabel | src/pages/Subscription.jsx:125 | the button reads `Active` exactly on the current plan |
| Subscription.ActiveIsDisabled | src/pages/Subscription.jsx:123-125 | a button that reads `Active` is always disabled |
| Subscription.SubscriptionPage.constructor | src/pages/Subscription.jsx:15-16 | not loading, no message |
| Subscription.SubscriptionPage.HandleSubscribe | src/pages/Subscription.jsx:18-84 | a free plan does nothing; outside 10:00-11:00 a warning with the time is shown and no order is made; inside, an order is requested, opening the checkout on success and showing the server's reason on failure; loading ends |

## Left out

- Network I/O: every backend call is an input outcome, not a request. The request
  URLs and bodies are modelled only where a rule decides them: `PostRequest`, the
  story body, and the `sent` and `requested` flags.
- Interleaving: each handler is one atomic step. A response that arrives after
  another handler ran, or after the component unmounted, is not modelled.
- Firebase phone sign-in, `RecaptchaVerifier` and the `window.recaptchaVerifier`
  global are foreign SDKs. Their outcome is the `PhoneAuth` input, and the SMS
  confirmation's verdict is the `phoneAccepts` input. Google sign-in appears only
  as its backend reply.
- Razorpay checkout and its payment handler are a foreign SDK. The model stops at
  the created order handed to the checkout.
- The India-time conversion through `toLocaleString` belongs to a locale library.
  The hour and the printed time are inputs to `HandleSubscribe`.
- `Date`, date formatting and `createdAt` are not modelled.
- `IntersectionObserver` play and pause, `FileReader`, `URL.createObjectURL`,
  `navigator.share` and the clipboard are browser APIs. A chosen file is reduced to
  its MIME type, and a preview URL is an input.
- `alert` is left out. The answers to `window.confirm` are inputs.
- Floating point is not modelled: the question usage bar and
  `Number(transferAmount)`.
- Markup, styles, routing, the navigation chrome, and the pages that only fetch and
  render are not part of this model.
- Questions.jsx's `fetchQuestions`, `fetchTodayCount`, voting and deleting of
  questions are left out: they are requests with no rule beyond them.
  `HandleAskQuestion` does not report the refetch that follows a successful
  question.
- Home.jsx's `handleLike`, `handleDeletePost` and `handleShare` are left out: they
  request and refetch with no local rule.
- The Reels page's own `fetchReels` is left out. `ReelItem` re-syncing its flag when
  the `user` or `likes` props change is modelled only at construction.
- The settings login-history fetch is left out.
- Leaderboard.jsx's leaders fetch and its own-rank fetch are left out.
  `Leaderboard.FetchesOwnRank` states the gate of line 15 as a predicate only.
- Home.jsx's post button is disabled unless `canPost` (line 236). That gate is in the
  markup: `Home.CanPost` states it, and `Home.HomeFeed.HandlePost` models the handler
  as it runs once called, without it.
- CreatePostModal.jsx: the closed dialog rendering nothing (line 13) is markup.
- The subscription message's colour and the story tray's "Your Story" label are
  markup.
- Text is a sequence of characters. JavaScript counts UTF-16 code units, so
  `length < 10` and `.{3}` differ for characters outside the Basic Multilingual
  Plane. `toLowerCase` and the `/i` flag are modelled for ASCII letters alone.
- The lookup tables (`limits`, the plan colours) ignore keys inherited through
  JavaScript's prototype chain, such as `constructor`.
- Session.Parse: only JSON produced by `JSON.stringify` of a user, and the text
  `null`, parse. Any other stored text is treated as failing. Other JSON values
  (numbers, strings, `true`) are not modelled.
- EmailMask.Mask: the address is a string. A leader or profile without an e-mail,
  where `.replace` would throw, is not modelled.
- Settings.SettingsModal.HandleLanguageChange: a user whose `phone` is present but
  not a string would throw. It is modelled like a missing phone.
- Settings.SettingsModal.TogglePrivacy: with nobody signed in and a reply without
  a user, whether the effect reruns depends on `null` replacing `undefined` or the
  reverse, which the in-memory session does not record; the model takes it not to
  rerun.
- The Profile page's effect on `user` is the separate step
  `Profile.ProfilePage.SyncWithUser(u, …)`, run with the new session user; the
  handlers that return `update` do not run it themselves, and whether React reruns
  it (the user object changed) is left to the caller.
- Stories.StoryList.CurrentStory: opening a group with no stories is not prevented
  by `handleStoryClick`; the viewer's render then reads `stories[0].type` of
  `undefined` and throws (StoryList.jsx:170). The model gives no story there and
  does not model the crash; `InBounds` admits that state at index 0.
- UserProfile: the `sent` friend status is named by the page but never set, so
  `FriendStatus` has two states.

## Findings

| source | as written | input that shows it | evidently intended | confidence | as-written member | corrected member |
|---|---|---|---|---|---|---|
| src/components/PostDetailModal.jsx:14 | `user?._id === post.user?._id \|\| user?.id === post.user?._id` holds when both sides are `undefined` | a user `{id: "u1"}` without `_id`, on a post whose `user` is the bare id string "u2": the owner menu is shown | owner only when the author's `_id` is defined and equals one of the user's ids | low, not executed | PostDetail.IsOwnerAsWrittenAdmitsStranger | PostDetail.IsOwnerMeaning |
| src/pages/Home.jsx:271 | `user?._id === post.user?._id` holds when both sides are `undefined` | the same user and post: the delete button is shown on another user's post | shown only when the author's `_id` is defined and equals the user's `_id` | low, not executed | Home.ShowDeletePostAsWrittenAdmitsStranger | Home.ShowDeletePostMeaning |
| src/pages/UserProfile.jsx:52 | `fetchProfile()` after `updateUser` runs the closure of the render that was clicked, whose `currentUser` has no new friend | a signed-in user who is not yet a friend adds a friend whose profile is not public: the refetch requests no posts, and with the status now connected the private notice is hidden too | the refetch sees the updated friends and requests the new friend's posts | medium, not executed | UserProfile.StaleRefetchHidesProfile | UserProfile.FreshRefetchShowsPosts |
