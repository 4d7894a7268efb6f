/** The profile screen (src/screens/ProfileScreen.js): the follow mutation's cache updater,
    which runs after the server answers, and the values the screen derives from the cache. */
module Profile {
  import opened Common
  import opened Posts

  /** The user object inside a cached profile. */
  datatype UserProfile = UserProfile(
    username: Option<string>,
    bio: Option<string>,
    postCount: Option<int>,
    followerCount: Option<int>,
    followingCount: Option<int>)

  /** The user object spread from `undefined`. */
  const BlankUser := UserProfile(None, None, None, None, None)

  datatype ProfileData = ProfileData(user: Option<UserProfile>, isFollowing: Option<bool>)

  /** The `["user", id]` entry: the body of `GET /users/:id`. */
  datatype ProfileEnvelope = ProfileEnvelope(success: bool, data: Option<ProfileData>)

  /** The body of `GET /users/:id/posts`: `postsData?.data?.posts`. */
  datatype UserPostsEnvelope = UserPostsEnvelope(data: Option<Option<seq<Post>>>)

  /** The follow state the server reports. */
  datatype FollowState = FollowState(isFollowing: bool, followerCount: Option<int>)

  const BlankData := ProfileData(None, None)

  /** Follow success: `isFollowing` and `user.followerCount` come from the response's nested
      `data`; every other field of the envelope, of `data` and of `user` is kept, and an
      absent entry stays absent. */
  function FollowUpdater(entry: Option<ProfileEnvelope>, body: InteractionBody<FollowState>): (r: Option<ProfileEnvelope>)
    requires body.nested.Some?
    ensures entry.None? <==> r.None?
    ensures entry.Some? ==> r.value.success == entry.value.success && r.value.data.Some?
    ensures entry.Some? ==> r.value.data.value.isFollowing == Some(body.nested.value.isFollowing)
    ensures entry.Some? ==> r.value.data.value.user.Some?
    ensures entry.Some? ==> r.value.data.value.user.value.followerCount == body.nested.value.followerCount
    ensures entry.Some? ==>
      var before := entry.value.data.GetOr(BlankData).user.GetOr(BlankUser);
      r.value.data.value.user.value.(followerCount := before.followerCount) == before
  {
    match entry
    case None => None
    case Some(e) =>
      var d := e.data.GetOr(BlankData);
      var u := d.user.GetOr(BlankUser);
      Some(e.(data := Some(d.(isFollowing := Some(body.nested.value.isFollowing),
                              user := Some(u.(followerCount := body.nested.value.followerCount))))))
  }

  /** `currentUser?._id === userId`. */
  function IsOwnProfile(currentUser: Option<User>, userId: string): (own: bool)
    ensures own <==> currentUser.Some? && currentUser.value.id == userId
  {
    currentUser.Some? && currentUser.value.id == userId
  }

  /** `profileData?.data?.isFollowing || false`. */
  function IsFollowing(profile: Option<ProfileEnvelope>): (b: bool)
    ensures b <==> profile.Some? && profile.value.data.Some? && profile.value.data.value.isFollowing == Some(true)
  {
    match profile
    case None => false
    case Some(e) =>
      match e.data
      case None => false
      case Some(d) => d.isFollowing.GetOr(false)
  }

  /** `postsData?.data?.posts || []`. */
  function ProfilePosts(postsData: Option<UserPostsEnvelope>): (posts: seq<Post>)
    ensures postsData.Some? && postsData.value.data.Some? && postsData.value.data.value.Some? ==>
      posts == postsData.value.data.value.value
    ensures !(postsData.Some? && postsData.value.data.Some? && postsData.value.data.value.Some?) ==>
      posts == []
  {
    match postsData
    case None => []
    case Some(e) =>
      match e.data
      case None => []
      case Some(p) => p.GetOr([])
  }

  /** `profileData?.data?.user` is present. */
  predicate HasUser(profile: Option<ProfileEnvelope>) {
    profile.Some? && profile.value.data.Some? && profile.value.data.value.user.Some?
  }

  /** The three counters, each `|| 0`. */
  datatype Stats = Stats(posts: int, followers: int, following: int)

  function StatsOf(profile: Option<ProfileEnvelope>): (s: Stats)
    ensures HasUser(profile) ==>
      var u := profile.value.data.value.user.value;
      s == Stats(CountOf(u.postCount), CountOf(u.followerCount), CountOf(u.followingCount))
    ensures !HasUser(profile) ==> s == Stats(0, 0, 0)
  {
    var u := if profile.Some? && profile.value.data.Some? then profile.value.data.value.user else None;
    match u
    case None => Stats(0, 0, 0)
    case Some(v) => Stats(CountOf(v.postCount), CountOf(v.followerCount), CountOf(v.followingCount))
  }

  /** The follow button: hidden on one's own profile; otherwise "Loading..." while the
      mutation is in flight, else "Following" or "Follow". */
  function FollowButton(own: bool, mutating: bool, following: bool): (text: Option<string>)
    ensures text.None? <==> own
    ensures !own && mutating ==> text == Some("Loading...")
    ensures !own && !mutating ==> text == Some(if following then "Following" else "Follow")
  {
    if own then None
    else if mutating then Some("Loading...")
    else if following then Some("Following")
    else Some("Follow")
  }

  /** The header the screen shows for a loaded profile. */
  datatype Header = Header(stats: Stats, button: Option<string>, posts: seq<Post>)

  function ProfileHeader(currentUser: Option<User>, userId: string, profile: Option<ProfileEnvelope>,
                         postsData: Option<UserPostsEnvelope>, mutating: bool): Header
  {
    Header(StatsOf(profile),
           FollowButton(IsOwnProfile(currentUser, userId), mutating, IsFollowing(profile)),
           ProfilePosts(postsData))
  }

  /** The button is shown exactly when the profile is not the viewer's own. */
  lemma FollowButtonShownIffOthers(currentUser: Option<User>, userId: string, profile: Option<ProfileEnvelope>,
                                   postsData: Option<UserPostsEnvelope>, mutating: bool)
    ensures ProfileHeader(currentUser, userId, profile, postsData, mutating).button.Some?
        <==> !(currentUser.Some? && currentUser.value.id == userId)
  {
  }

  /** After a successful follow, the screen shows the server's follow state on the button and
      the server's follower count (`|| 0`) in the stats. */
  lemma {:induction false} FollowSuccessShown(entry: ProfileEnvelope, body: InteractionBody<FollowState>)
    requires body.nested.Some?
    ensures var r := FollowUpdater(Some(entry), body);
            IsFollowing(r) == body.nested.value.isFollowing &&
            StatsOf(r).followers == CountOf(body.nested.value.followerCount)
  {
    var r := FollowUpdater(Some(entry), body);
    assert r.value.data.value.isFollowing == Some(body.nested.value.isFollowing);
    assert r.value.data.value.user.Some?;
  }
}
