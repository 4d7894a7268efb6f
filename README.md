# Vistagram client logic in Dafny

This project models the client-side logic of Vistagram, a React photo-sharing front end.
The model leaves out styling and library glue. It covers the parts that are the
application's own decisions:

- **Home feed container.** It keeps the requested page, the posts accumulated across pages,
  and the per-page entries of the query cache. Likes and shares are updated optimistically,
  then reconciled with the server's answer or rolled back. Comments are validated and
  appended. Load-more, refresh and the reset on returning to "/" are modelled too. It is a
  class, `Feed.FeedContainer`, with one method per handler and per mutation callback, and
  each callback is one atomic step.
- **Per-post rewrites.** The `prev.map(post => post._id === id ? {...post, …} : post)`
  rewrites shared by the feed and the detail screen are pure functions (`Posts.Apply`,
  `Posts.UpdatePosts`).
- **Cache updaters of the detail and profile screens.** These run only after the server
  answers. Each screen keeps its own response shape: the feed and the profile read the
  nested `data.data.x` of an interaction response, while the detail screen reads the
  top-level `data.x`. `InteractionBody` carries both so that the difference is visible
  (`PostDetail.DetailReadsTopLevelOnly`).
- **Component logic.** This covers the post card's intents and modal flag, the post list's
  view and footer choice and its load-more guard, the comment dialog's draft, and the
  create-post form's validation, payload and camera/stream flags.
- **Validators of the sign-up and sign-in forms.** They follow react-hook-form semantics:
  length and pattern rules are not checked on an empty value. The email pattern
  `^[A-Z0-9._%+-]+@[A-Z0-9.-]+\.[A-Z]{2,}$` (case-insensitive) is stated as an existential
  split of the string. It is matched by a first-`@`/last-`.` scanner proved equivalent to
  it. Each screen's `loading` flag is modelled as a class field.
- **Small functions.**
  - avatar initials;
  - image URL resolution and the fallback-image state machine;
  - the navigation items and their active predicate;
  - the route-guard table.

Server answers, the clipboard, toasts, alerts, navigation and the random choice of a stock
picture are inputs or outputs of the model, never computed by it. Integers are unbounded,
as JavaScript numbers are for the counts involved. Text functions (`trim`, `toUpperCase`,
`split(" ")`) work on ASCII whitespace and ASCII letters.

One behaviour of `FallbackImage.js` is modelled as written. The "Image not available"
placeholder requires `currentSrc === getImageUrl(src)`. The first load error always moves
`currentSrc` to a stock picture, so the placeholder only ever appears for a source that
itself resolves to a stock picture (`FallbackImage.PlaceholderOnlyForStockSources`,
`FallbackImage.NoPlaceholderForUploads`). The placeholder the error handler's comment
describes is modelled beside it; see "## Findings".

## Model

| member | source | states |
|---|---|---|
| Posts.Apply | src/components/hocs/withHomepageScreen.js:64-75 | every per-post rewrite keeps the post's id, author, caption and image, and changes only its own pair of fields (like pair, share pair or comment pair) |
| Posts.LikeEstimateEffect | src/components/hocs/withHomepageScreen.js:64-75 | the optimistic like sets `isLiked` to the requested state; the count (absent read as 0) goes up by one on like and to max(0, n-1) on unlike |
| Posts.LikeThenUnlikeRestoresCount | src/components/hocs/withHomepageScreen.js:64-75 | like followed by unlike gives back the original count and leaves the post not liked |
| Posts.ShareEstimateEffect | src/components/hocs/withHomepageScreen.js:153-163 | the optimistic share marks the post shared and adds exactly one share |
| Posts.CommentAppendEffect | src/components/hocs/withHomepageScreen.js:254-264 | comment success adds one to the count and puts the server's comment last, earlier comments kept in order |
| Posts.ReconcileOverridesEstimate | src/components/hocs/withHomepageScreen.js:99-111 | on like success the post holds the server's `isLiked`/`likeCount` whatever the estimate had written |
| Posts.ShareReconcileOverridesEstimate | src/components/hocs/withHomepageScreen.js:184-196 | on share success the post holds the server's `isShared`/`shareCount` whatever the estimate had written |
| Posts.CountsStayNonNegative | src/components/hocs/withHomepageScreen.js:64-75 | no rewrite makes a counter negative, provided the server's own counters are not negative |
| Posts.UpdatePosts | src/components/hocs/withHomepageScreen.js:64-75 | mapping a rewrite over the list keeps its length and order, rewrites the posts with the id and leaves every other post unchanged |
| Posts.UpdateKeepsIds | src/components/hocs/withHomepageScreen.js:101-111 | a rewrite over the list keeps the sequence of ids |
| Posts.UpdateOfMissingIdIsIdentity | src/components/hocs/withHomepageScreen.js:153-163 | a rewrite aimed at an id not in the list returns the list unchanged |
| Posts.UpdateTwice | src/components/hocs/withHomepageScreen.js:101-111 | two list rewrites on the same id compose as the composed post rewrite |
| Posts.ReconciledListIgnoresEstimate | src/components/hocs/withHomepageScreen.js:56-128 | estimate then reconcile over the list equals reconcile alone |
| Posts.LikeThenUnlikeOverList | src/components/hocs/withHomepageScreen.js:64-76 | like then unlike over the list restores every count and leaves the matching posts not liked |
| Feed.LaterPagesAppend | src/components/hocs/withHomepageScreen.js:36-45 | pages after the first only append their posts, in arrival order |
| Feed.PagesAccumulateInOrder | src/components/hocs/withHomepageScreen.js:36-45 | receiving pages 1..n gives exactly their posts concatenated in order, whatever was held before page 1 |
| Feed.UpdateCachedPage | src/components/hocs/withHomepageScreen.js:78-94 | an absent page entry stays absent, other pages are untouched, the pagination is kept and the posts get the list rewrite |
| Feed.CommentToSend | src/components/hocs/withHomepageScreen.js:320-326 | absent or whitespace-only text is refused; otherwise the trimmed, non-empty text is sent (the detail screen's guard, src/screens/PostDetailScreen.js:212-218, is the same rule) |
| Feed.ShareFailure | src/components/hocs/withHomepageScreen.js:237-244 | a failed share leads to the login branch exactly when the status is 401 |
| Feed.FeedContainer.constructor | src/components/hocs/withHomepageScreen.js:10-11 | the container starts at page 1 with no posts |
| Feed.FeedContainer.OnFeedSuccess | src/components/hocs/withHomepageScreen.js:36-45 | page 1 replaces the list, later pages append; the page is cached |
| Feed.FeedContainer.HandleLike | src/components/hocs/withHomepageScreen.js:56-98 | returns the current page and its entry as the mutation context, and applies the estimate to `allPosts` and to that entry only |
| Feed.FeedContainer.LikeSucceeded | src/components/hocs/withHomepageScreen.js:99-128 | the server's nested values go into `allPosts` and into the entry of the page captured at the click, whatever page is current now |
| Feed.FeedContainer.LikeFailed | src/components/hocs/withHomepageScreen.js:129-136 | the snapshot, when present, is written back to the entry of the page it was taken from; `allPosts` keeps the estimate |
| Feed.FeedContainer.HandleShare | src/components/hocs/withHomepageScreen.js:300-318 | with no user only the link is copied and nothing changes; otherwise the current page and its entry become the mutation context and the optimistic share is applied to `allPosts` and that entry |
| Feed.FeedContainer.ShareSucceeded | src/components/hocs/withHomepageScreen.js:184-224 | the server's nested share values go into `allPosts` and into the entry of the page captured at the click; the post's link is copied |
| Feed.FeedContainer.ShareFailed | src/components/hocs/withHomepageScreen.js:229-245 | the same partial rollback as for likes, into the page the snapshot was taken from, with the reaction chosen by the status |
| Feed.FeedContainer.HandleComment | src/components/hocs/withHomepageScreen.js:320-326 | blank or absent text sends nothing; otherwise the request names the post and carries the trimmed text; the current page is the one its callbacks write to |
| Feed.FeedContainer.CommentSucceeded | src/components/hocs/withHomepageScreen.js:252-281 | the comment rewrite is applied to `allPosts` and to the entry of the page current when the comment was sent |
| Feed.FeedContainer.HandleRefresh | src/components/hocs/withHomepageScreen.js:333-337 | back to page 1 with an empty list |
| Feed.FeedContainer.HandleLoadMore | src/components/hocs/withHomepageScreen.js:339-343 | the page goes up by exactly one when the last pagination says `hasNext`, otherwise nothing changes |
| Feed.FeedContainer.OnPathChange | src/components/hocs/withHomepageScreen.js:17-24 | arriving at "/" resets to page 1 with an empty list; other paths change nothing |
| Feed.FeedContainer.HandleUserClick | src/components/hocs/withHomepageScreen.js:328-331 | the target is "/profile/" followed by the user id |
| Feed.LikeRollbackScenario | src/components/hocs/withHomepageScreen.js:56-136 | a failed like leaves the cache exactly as before the click while `allPosts` keeps the estimate |
| Feed.LikeRollbackAfterLoadMoreScenario | src/components/hocs/withHomepageScreen.js:56-136 | a like that fails after a load-more still rolls back the page it was made on: the cache ends exactly as before the click |
| Feed.LikeSuccessScenario | src/components/hocs/withHomepageScreen.js:56-128 | a successful like leaves both views as if only the server's values had been applied |
| PostDetail.UpdateEntry | src/screens/PostDetailScreen.js:121-131 | an absent entry stays absent; otherwise the envelope is kept and its post gets the rewrite |
| PostDetail.LikeUpdater | src/screens/PostDetailScreen.js:119-131 | `isLiked`/`likeCount` copied from the response's top level, every other field kept, absent entry kept absent |
| PostDetail.ShareUpdater | src/screens/PostDetailScreen.js:143-155 | `isShared`/`shareCount` copied from the response's top level, every other field kept |
| PostDetail.CommentUpdater | src/screens/PostDetailScreen.js:180-192 | the count goes up by one (absent read as 0) and the comment goes last; every other field kept |
| PostDetail.AfterLike | src/screens/PostDetailScreen.js:114-139 | no optimistic step: a failure leaves the entry as it was |
| PostDetail.AfterShare | src/screens/PostDetailScreen.js:142-174 | a failed share leaves the entry as it was |
| PostDetail.AfterComment | src/screens/PostDetailScreen.js:177-201 | a failed comment leaves the entry as it was |
| PostDetail.DetailReadsTopLevelOnly | src/screens/PostDetailScreen.js:127-128 | a response carrying the like state only under a nested `data` leaves the cached post not liked and without a count |
| PostDetail.SelectView | src/screens/PostDetailScreen.js:228-292 | spinner while loading, then the error's message, then not-found for a missing post, and the card only otherwise |
| Profile.FollowUpdater | src/screens/ProfileScreen.js:198-213 | `isFollowing` and `user.followerCount` from the nested `data`, every other field kept, absent entry kept absent |
| Profile.IsOwnProfile | src/screens/ProfileScreen.js:248 | own profile exactly when the signed-in user's id equals the route's id |
| Profile.IsFollowing | src/screens/ProfileScreen.js:249 | following only when the cached flag is present and true |
| Profile.ProfilePosts | src/screens/ProfileScreen.js:247 | the posts list when the response carries one at every level, otherwise the empty list |
| Profile.StatsOf | src/screens/ProfileScreen.js:281-291 | with a user in the profile, its three counters (each absent one as 0); without one, all three are 0 |
| Profile.FollowButton | src/screens/ProfileScreen.js:294-307 | hidden on one's own profile; "Loading..." while following is in flight, else "Following" or "Follow" |
| Profile.FollowButtonShownIffOthers | src/screens/ProfileScreen.js:294-307 | the header's button is shown exactly when the profile is not the viewer's |
| Profile.FollowSuccessShown | src/screens/ProfileScreen.js:199-213 | after follow success the screen shows the server's follow state and follower count |
| PostCard.LikeClick | src/components/molecules/PostCard/PostCard.js:126-130 | with a callback, a like click requests the negation of the current state |
| PostCard.ShareClick | src/components/molecules/PostCard/PostCard.js:132-136 | with a callback, a share click forwards the post's id; nothing without one |
| PostCard.CommentSubmit | src/components/molecules/PostCard/PostCard.js:142-146 | the modal's text is forwarded unchanged with the post's id when the callback exists |
| PostCard.UserClick | src/components/molecules/PostCard/PostCard.js:148-152 | fires exactly when the callback and a non-empty author id exist |
| PostCard.DisplayedCounts | src/components/molecules/PostCard/PostCard.js:209-241 | each count is displayed as the post's own value, an absent one as 0 |
| PostCard.DoubleClickRestores | src/components/molecules/PostCard/PostCard.js:126-130 | two like clicks through the feed's estimate restore flag and count when the count was consistent |
| PostCard.Card.constructor | src/components/molecules/PostCard/PostCard.js:124 | the modal starts closed |
| PostCard.Card.HandleComment | src/components/molecules/PostCard/PostCard.js:138-140 | the comment button opens the modal |
| PostCard.Card.CloseModal | src/components/molecules/PostCard/PostCard.js:259-262 | closing the modal clears the flag |
| PostFeed.WithDefaults | src/components/organisms/PostFeed/PostFeed.js:61-66 | a given prop is used as given; an absent one defaults to the empty list or false; the error and the load-more handler pass through |
| PostFeed.FooterOf | src/components/organisms/PostFeed/PostFeed.js:163-177 | spinner iff fetching, load-more button iff next page and not fetching, end message iff no next page and a non-empty list |
| PostFeed.Render | src/components/organisms/PostFeed/PostFeed.js:87-177 | loading first, then error, then empty, and only then one card per post in order |
| PostFeed.LoadMoreFires | src/components/organisms/PostFeed/PostFeed.js:81-85 | the callback fires exactly when `hasNextPage`, not fetching, and the callback exists |
| PostFeed.FooterConsistent | src/components/organisms/PostFeed/PostFeed.js:163-177 | the button and the end message never show together, and a shown button fires |
| CommentModal.SubmitOutcome | src/components/molecules/CommentModal/CommentModal.js:81-88 | a blank draft sends nothing; otherwise the trimmed, non-empty draft |
| CommentModal.Modal.constructor | src/components/molecules/CommentModal/CommentModal.js:79 | the draft starts empty |
| CommentModal.Modal.Edit | src/components/molecules/CommentModal/CommentModal.js:129 | the draft becomes the typed text |
| CommentModal.Modal.SubmitDisabled | src/components/molecules/CommentModal/CommentModal.js:146 | disabled exactly when loading or the draft is blank |
| CommentModal.Modal.HandleSubmit | src/components/molecules/CommentModal/CommentModal.js:81-88 | blank draft: no submit, no close, draft kept; otherwise the trimmed draft once, cleared, closed |
| CommentModal.Modal.HandleClose | src/components/molecules/CommentModal/CommentModal.js:90-93 | the draft is cleared and the modal closes |
| CommentModal.ModalTextPassesFeedGuard | src/components/molecules/CommentModal/CommentModal.js:83-84 | what the dialog sends passes the feed's comment guard unchanged |
| CreatePost.Payload | src/components/organisms/CreatePost/CreatePost.js:220-233 | rejected when the image is missing or the caption is blank; otherwise the same image, the trimmed caption, the trimmed location or null |
| CreatePost.FormValidIffAccepted | src/components/organisms/CreatePost/CreatePost.js:220-235 | `isFormValid` holds exactly when a submit is not rejected |
| CreatePost.Form.constructor | src/components/organisms/CreatePost/CreatePost.js:141-148 | no image, empty caption and location, camera hidden, no stream |
| CreatePost.Form.EditCaption | src/components/organisms/CreatePost/CreatePost.js:374 | only the caption changes |
| CreatePost.Form.EditLocation | src/components/organisms/CreatePost/CreatePost.js:382 | only the location changes |
| CreatePost.Form.ImageRead | src/components/organisms/CreatePost/CreatePost.js:154-156 | the read data URL becomes the image |
| CreatePost.Form.HandleCameraClick | src/components/organisms/CreatePost/CreatePost.js:161-181 | the camera is shown only when the browser supports it |
| CreatePost.Form.StreamGranted | src/components/organisms/CreatePost/CreatePost.js:166-167 | the granted stream is kept |
| CreatePost.Form.CapturePhoto | src/components/organisms/CreatePost/CreatePost.js:183-203 | with video and canvas mounted: the frame becomes the image, the camera hides, the stream is released |
| CreatePost.Form.CloseCamera | src/components/organisms/CreatePost/CreatePost.js:205-211 | the camera hides and the stream is released; the image is untouched |
| CreatePost.Form.RemoveImage | src/components/organisms/CreatePost/CreatePost.js:213-218 | no image, and a mounted file input is cleared |
| CreatePost.Form.ShareDisabled | src/components/organisms/CreatePost/CreatePost.js:394 | disabled exactly when loading, the image is missing or the caption is blank |
| CreatePost.Form.HandleSubmit | src/components/organisms/CreatePost/CreatePost.js:220-233 | sends the payload exactly when not rejected |
| FormRules.IsEmail | src/screens/RegisterScreen.js:147-153 | the matcher accepts exactly the strings the email pattern matches |
| FormRules.MatchUsesFirstAtLastDot | src/screens/RegisterScreen.js:149-152 | any match uses the first `@` and the last `.` of the string |
| FormRules.SplitIsFirstAtLastDot | src/screens/RegisterScreen.js:149-152 | no character class before the `@` admits `@` and the final letters admit no `.` |
| FormRules.Accepts | src/screens/RegisterScreen.js:124-179 | a field passes exactly when every one of its rules holds |
| FormRules.EmailRule | src/screens/RegisterScreen.js:147-153 | an email passes exactly when it matches the pattern |
| FormRules.PasswordRule | src/screens/RegisterScreen.js:161-167 | a password passes exactly when its JavaScript length (UTF-16 code units) is at least six |
| Text.Utf16LengthIsCount | src/screens/RegisterScreen.js:161-167 | a string's JavaScript length equals its character count exactly when no character lies outside the Basic Multilingual Plane |
| FormRules.SingleAt | src/screens/RegisterScreen.js:150 | an accepted address has exactly one `@`, and at least two characters after its last `.` |
| RegisterScreen.UsernameRule | src/screens/RegisterScreen.js:124-139 | a username passes exactly when it has 3 to 30 characters, each an ASCII letter, digit or underscore; for such a name the UTF-16 length is the character count |
| RegisterScreen.ConfirmRule | src/screens/RegisterScreen.js:175-179 | the confirmation passes exactly when it is non-empty and equal to the password |
| RegisterScreen.FormValidMeans | src/screens/RegisterScreen.js:124-179 | the whole form passes exactly when the four field conditions hold |
| RegisterScreen.EffectOf | src/screens/RegisterScreen.js:97-108 | navigation to "/" exactly on success; a failure shows its message or "Registration failed" |
| RegisterScreen.RegisterForm.constructor | src/screens/RegisterScreen.js:85 | not loading at first |
| RegisterScreen.RegisterForm.Submit | src/screens/RegisterScreen.js:97-98 | a valid form is sent and raises `loading`; an invalid one sends nothing and changes nothing |
| RegisterScreen.RegisterForm.Finish | src/screens/RegisterScreen.js:99-107 | `loading` is lowered on both outcomes |
| RegisterScreen.Attempt | src/screens/RegisterScreen.js:97-108 | a whole attempt ends with the button enabled and goes to "/" only on success |
| LoginScreen.FormValidMeans | src/screens/LoginScreen.js:122-143 | credentials pass exactly when the email matches and the password is six UTF-16 code units long or more; a form that passes sign-up also passes sign-in |
| LoginScreen.EffectOf | src/screens/LoginScreen.js:94-105 | navigation to "/" exactly on success; a failure shows its message or "Login failed" |
| LoginScreen.LoginForm.constructor | src/screens/LoginScreen.js:85 | not loading at first |
| LoginScreen.LoginForm.Submit | src/screens/LoginScreen.js:94-95 | valid credentials are sent and raise `loading`; invalid ones change nothing |
| LoginScreen.LoginForm.Finish | src/screens/LoginScreen.js:96-104 | `loading` is lowered in `finally` whatever the outcome |
| LoginScreen.Attempt | src/screens/LoginScreen.js:94-152 | the button is enabled again after an attempt, and "/" is reached only on success |
| Avatar.FirstChar | src/components/atoms/Avatar/Avatar.js:155 | the word's first character, none exactly for an empty word |
| Avatar.RunWithoutSpace | src/components/atoms/Avatar/Avatar.js:153-156 | a space-free run contributes at most its first character |
| Text.SplitJoinRoundTrip | src/components/atoms/Avatar/Avatar.js:153-154 | `split(" ")` loses nothing: joining its pieces with single spaces gives back the name |
| Avatar.HeadsOfSplit | src/components/atoms/Avatar/Avatar.js:153-156 | first characters of the `split(" ")` pieces are exactly the word openings; empty pieces contribute nothing |
| Avatar.Initials | src/components/atoms/Avatar/Avatar.js:151-159 | "?" for an empty name; otherwise the upper-cased word openings, at most two |
| Avatar.BlankNameHasNoInitials | src/components/atoms/Avatar/Avatar.js:152-158 | a name of spaces only yields no initials rather than "?" |
| Avatar.Render | src/components/atoms/Avatar/Avatar.js:168-173 | the image exactly when `src` is truthy; otherwise the initials of the username, falling back to `alt` |
| Avatar.DefaultPlaceholder | src/components/atoms/Avatar/Avatar.js:143 | with nothing passed, the placeholder shows "A" from the default alt text |
| FallbackImage.BackendUrl | src/components/atoms/FallbackImage/FallbackImage.js:56-57 | the configured URL, or "http://localhost:5000" |
| FallbackImage.ImageUrl | src/components/atoms/FallbackImage/FallbackImage.js:52-61 | null for an empty source; "http" sources kept; "/uploads/" sources prefixed with the backend; others kept |
| FallbackImage.ImageUrlIdempotent | src/components/atoms/FallbackImage/FallbackImage.js:52-61 | with an absolute backend URL, resolving twice equals resolving once |
| FallbackImage.Viewer.constructor | src/components/atoms/FallbackImage/FallbackImage.js:48-63 | no error, not loaded, showing the resolved source |
| FallbackImage.Viewer.HandleImageError | src/components/atoms/FallbackImage/FallbackImage.js:74-85 | the first error switches to one of the five stock pictures; later errors keep the picture; the error flag is set and the loading overlay is gone; the intended placeholder shows exactly when the error came from the stock picture |
| FallbackImage.Viewer.HandleImageLoad | src/components/atoms/FallbackImage/FallbackImage.js:87-90 | loaded and no error; the picture stays; neither the overlay nor the placeholder shows |
| FallbackImage.PlaceholderOnlyForStockSources | src/components/atoms/FallbackImage/FallbackImage.js:92 | the placeholder can show only when the source itself resolves to a stock picture |
| FallbackImage.BrokenUploadScenario | src/components/atoms/FallbackImage/FallbackImage.js:74-92 | a broken upload shows no placeholder after one error or after two |
| FallbackImage.FallbackAlsoFailsScenario | src/components/atoms/FallbackImage/FallbackImage.js:81-84 | with the placeholder as intended, a broken upload shows a stock picture and no placeholder after one error, and the placeholder after two |
| FallbackImage.UploadIsNeverStock | src/components/atoms/FallbackImage/FallbackImage.js:52-72 | whatever the backend URL, a resolved `/uploads/` source is none of the five stock pictures |
| FallbackImage.NoPlaceholderForUploads | src/components/atoms/FallbackImage/FallbackImage.js:74-92 | a viewer of an upload never shows the placeholder, in any reachable state |
| Navigation.ProfilePath | src/components/molecules/Navigation/Navigation.js:155 | "/profile/" + the user's id, or "/login" with no user |
| Navigation.NavItems | src/components/molecules/Navigation/Navigation.js:130-168 | exactly Home "/", Create "/create" and Profile, in that order |
| Navigation.ActiveIsExactMatch | src/components/molecules/Navigation/Navigation.js:174-177 | an item is active exactly when the location equals its path; the prefix branch never fires |
| Navigation.AtMostOneActive | src/components/molecules/Navigation/Navigation.js:174-177 | at most one item is active |
| Navigation.LogoutTarget | src/components/molecules/Navigation/Navigation.js:125-128 | logout is offered exactly to a signed-in user and leads to "/login" |
| App.MatchRoute | src/App.js:22-74 | the four fixed paths match their routes exactly; parameter routes carry one non-empty segment |
| App.MatchRoundTrip | src/App.js:22-74 | a matched route is read back from its own path |
| App.ParameterRoutes | src/App.js:56-71 | every well-formed profile and post path is matched with its parameter |
| App.Decide | src/App.js:12-76 | spinner while loading; an unmatched path redirects to "/"; a sign-in route renders its page for a visitor and redirects a signed-in user to "/"; an app route renders its page (with the path's parameter) for a signed-in user and redirects a visitor to "/login" |
| App.ProtectedRoutes | src/App.js:36-71 | each app page renders its own screen for a signed-in user and sends visitors to "/login" |
| App.PublicRoutes | src/App.js:22-33 | each sign-in page renders its own screen for a visitor and sends signed-in users to "/" |
| App.RedirectsSettle | src/App.js:22-74 | following redirects reaches a rendered page in at most two steps |

## Left out

- Network and the API client (`src/services/api.js`) are not part of this model. Server answers are parameters of the success and failure steps, never computed. The like and unlike endpoints are the same, so no relation between request and answer is assumed.
- react-query internals are not modelled: `cancelQueries`, `invalidateQueries`, refetching, `staleTime`, and races between mutations that are in flight at the same time. Each callback is one atomic step. The page a mutation's callbacks write to is the one captured when it was issued (`MutationContext`).
- `keepPreviousData` is approximated by the last delivered page (`lastData`).
- The side effects kept by the model are returned values: the link a share copies (`ShareDispatch`, and `copied` from `Feed.FeedContainer.ShareSucceeded`, both as the path without `window.location.origin`), the share-failure reaction (`ShareFailureReaction`), the sign-in and sign-up toasts (`Effect`), and navigation targets.
- Other toasts and alerts are not modelled. In the feed these are the like-failure, comment-success, comment-failure and blank-comment toasts, and the toast that reports whether the clipboard write worked. In the create-post form it is the alert; its rejection shows only as the absent payload. Console output is not modelled either.
- Camera access, `FileReader` and canvas drawing are left out. Their results arrive as parameters (`supported`, `mounted`, `frame`, `dataUrl`, `Stream`).
- Feed pages are assumed always to carry a `posts` array: the `data.posts || []` fallback for a page without one is not modelled.
- Feed.FeedContainer.LikeSucceeded: requires the response's nested `data`. Without it the source throws while reading `data.data.isLiked`.
- Feed.FeedContainer.ShareSucceeded: requires the response's nested `data`, for the same reason.
- Profile.FollowUpdater: requires the response's nested `data`, for the same reason. A cached profile without `data` is treated as an empty one, where the source throws reading `oldData.data.user`.
- PostDetail.CommentUpdater: a cached envelope without `data` is treated as an empty post, where the source throws reading `oldData.data.commentCount`.
- Post flags (`isLiked`, `isShared`) absent from the server's object are read as false.
- react-hook-form's rule order and error-message priority are not modelled, only whether a field passes.
- `trim`, `toUpperCase` and `split` are modelled on ASCII only. Unicode whitespace and case mapping are left out.
- Strings are sequences of Unicode scalar values, while JavaScript strings are sequences of UTF-16 code units. Lengths in the validation rules are counted in code units (`Text.Utf16Length`). Indexing by code unit is not modelled; the members below are where it shows.
- Avatar.FirstChar: `charAt(0)` of a word that starts with a character outside the Basic Multilingual Plane (an emoji, say) is a lone high surrogate in the source; the model yields the whole character, since a lone surrogate is not a Dafny `char`.
- Avatar.Initials: each initial is a word's first code unit in the source, so an initial outside the Basic Multilingual Plane is a lone high surrogate there and the whole character in the model. Both keep at most two initials.
- CreatePost.Form.RemoveImage: mounting of the hidden file input by the render is not modelled. `fileInput` stays as the constructor sets it, so the model does not show that the input is unmounted (and the clearing branch idle) whenever the remove button is on screen.
- Avatar.Render: a `null` alt text is treated like an absent one (the default "Avatar" applies). In the source only `undefined` takes the default.
- The random choice of the stock picture is a nondeterministic choice among the five.
- react-router's case-insensitive matching and trailing slashes are not modelled.
- App.MatchRoute: the `:userId` and `:postId` parameters are the raw path segment. react-router percent-decodes them, so "/profile/a%20b" gives the id "a b" in the source and "a%20b" in the model, and an encoded "/" (`%2F`) can appear in the decoded id.
- RegisterScreen.RegisterForm.Submit: the browser's own check of the `type="email"` field is not modelled. The form has no `noValidate`, so an address the pattern accepts but HTML's e-mail grammar rejects (an empty domain label as in "a@b..co", or a label starting with "-" as in "a@-b.co") stops the submit before react-hook-form runs. The model sends such a form and raises `loading`.
- LoginScreen.LoginForm.Submit: the same browser check of the `type="email"` field is not modelled, with the same consequence for such addresses.
- CreatePost.Form.EditCaption: the caption field's `maxLength={2200}` is not modelled. The browser stops typing and pasting at 2200 UTF-16 code units, while the model accepts a caption of any length.
- The post list's `handleRefresh` forwarding is not modelled.
- Relative dates (`formatDistanceToNow`) are not modelled.
- Purely presentational and composition files (buttons, icons, inputs, spinners, styles, the activity screen, the home and create-post UI screens) and `withCreatePostScreen.js` (Blob and FormData construction, navigation) are not part of this model.

## Findings

| source | as written | input that shows it | evidently intended | confidence | as-written member | corrected member |
|---|---|---|---|---|---|---|
| src/components/atoms/FallbackImage/FallbackImage.js:74-92 | a second load error, coming from the stock picture, only sets `imageError` again; the placeholder test `currentSrc === getImageUrl(src)` fails because `currentSrc` is the stock picture | source "/uploads/a.jpg" whose load fails, then the stock picture's load fails too | after the stock picture also fails, show the "Image not available" placeholder | not executed | FallbackImage.BrokenUploadScenario | FallbackImage.FallbackAlsoFailsScenario |
