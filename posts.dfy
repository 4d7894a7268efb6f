/** The post record as the client caches it, and the pure "old post -> new post" rewrites
    that the feed applies through `prev.map(post => post._id === id ? {...post, ...} : post)`
    (src/components/hocs/withHomepageScreen.js) and the detail screen applies to its single
    cached post (src/screens/PostDetailScreen.js). */
module Posts {
  import opened Common

  /** A comment object as the server returns it; the client stores it without looking inside. */
  datatype Comment = Comment(body: string)

  /** A cached post. Counters and the comment list may be absent from the server's object;
      the flags read `undefined` as false. */
  datatype Post = Post(
    id: string,
    authorId: Option<string>,
    caption: string,
    image: Option<string>,
    isLiked: bool,
    likeCount: Option<int>,
    isShared: bool,
    shareCount: Option<int>,
    commentCount: Option<int>,
    comments: Option<seq<Comment>>)

  /** The record that spreading an `undefined` object yields: no field set. */
  const BlankPost := Post("", None, "", None, false, None, false, None, None, None)

  /** `count || 0`. */
  function CountOf(n: Option<int>): int {
    if n.Some? then n.value else 0
  }

  /** `comments || []`. */
  function CommentsOf(p: Post): seq<Comment> {
    if p.comments.Some? then p.comments.value else []
  }

  /** The authoritative like state the server reports. */
  datatype LikeState = LikeState(isLiked: bool, likeCount: Option<int>)

  /** The authoritative share state the server reports. */
  datatype ShareState = ShareState(isShared: bool, shareCount: Option<int>)

  /** The body of an interaction response: the fields at its top level (`data.x`), and the
      nested `data` object (`data.data.x`) if there is one. */
  datatype InteractionBody<T> = InteractionBody(topLevel: T, nested: Option<T>)

  /** The per-post rewrites of the source. */
  datatype PostUpdate =
    | LikeEstimate(newIsLiked: bool)     // optimistic like/unlike
    | LikeReconcile(like: LikeState)     // like success: copy the server's values
    | ShareEstimate                      // optimistic share
    | ShareReconcile(share: ShareState)  // share success: copy the server's values
    | CommentAppend(comment: Comment)    // comment success: count it and append it

  /** The fields a rewrite never touches: identity and content. */
  predicate SameContent(p: Post, q: Post) {
    p.id == q.id && p.authorId == q.authorId && p.caption == q.caption && p.image == q.image
  }

  /** `p` and `q` differ at most in the like pair. */
  predicate AgreeExceptLike(p: Post, q: Post) {
    p.(isLiked := q.isLiked, likeCount := q.likeCount) == q
  }

  /** `p` and `q` differ at most in the share pair. */
  predicate AgreeExceptShare(p: Post, q: Post) {
    p.(isShared := q.isShared, shareCount := q.shareCount) == q
  }

  /** `p` and `q` differ at most in the comment count and list. */
  predicate AgreeExceptComments(p: Post, q: Post) {
    p.(commentCount := q.commentCount, comments := q.comments) == q
  }

  function Apply(u: PostUpdate, p: Post): (q: Post)
    ensures SameContent(p, q)
    ensures u.LikeEstimate? || u.LikeReconcile? ==> AgreeExceptLike(p, q)
    ensures u.ShareEstimate? || u.ShareReconcile? ==> AgreeExceptShare(p, q)
    ensures u.CommentAppend? ==> AgreeExceptComments(p, q)
  {
    match u
    case LikeEstimate(b) =>
      var n := CountOf(p.likeCount);
      p.(isLiked := b, likeCount := Some(if b then n + 1 else if n - 1 < 0 then 0 else n - 1))
    case LikeReconcile(s) =>
      p.(isLiked := s.isLiked, likeCount := s.likeCount)
    case ShareEstimate =>
      p.(isShared := true, shareCount := Some(CountOf(p.shareCount) + 1))
    case ShareReconcile(s) =>
      p.(isShared := s.isShared, shareCount := s.shareCount)
    case CommentAppend(c) =>
      p.(commentCount := Some(CountOf(p.commentCount) + 1), comments := Some(CommentsOf(p) + [c]))
  }

  /** The optimistic like sets the requested flag; the count goes up by one on like and down by
      one on unlike, clamped at 0, with an absent count read as 0. */
  lemma LikeEstimateEffect(p: Post, b: bool)
    ensures Apply(LikeEstimate(b), p).isLiked == b
    ensures b ==> CountOf(Apply(LikeEstimate(b), p).likeCount) == CountOf(p.likeCount) + 1
    ensures !b ==> CountOf(Apply(LikeEstimate(b), p).likeCount)
                   == if CountOf(p.likeCount) >= 1 then CountOf(p.likeCount) - 1 else 0
    ensures !b ==> CountOf(Apply(LikeEstimate(b), p).likeCount) >= 0
  {
  }

  /** Like then unlike restores the count (read through `|| 0`) and the flag is false. */
  lemma LikeThenUnlikeRestoresCount(p: Post)
    requires CountOf(p.likeCount) >= 0
    ensures var q := Apply(LikeEstimate(false), Apply(LikeEstimate(true), p));
            CountOf(q.likeCount) == CountOf(p.likeCount) && !q.isLiked
  {
  }

  /** The optimistic share marks the post shared and adds exactly one share. */
  lemma ShareEstimateEffect(p: Post)
    ensures Apply(ShareEstimate, p).isShared
    ensures CountOf(Apply(ShareEstimate, p).shareCount) == CountOf(p.shareCount) + 1
  {
  }

  /** A successful comment adds one to the count and puts the server's comment at the end of
      the list, keeping the earlier comments in order. */
  lemma CommentAppendEffect(p: Post, c: Comment)
    ensures CountOf(Apply(CommentAppend(c), p).commentCount) == CountOf(p.commentCount) + 1
    ensures CommentsOf(Apply(CommentAppend(c), p)) == CommentsOf(p) + [c]
  {
  }

  /** Reconciling replaces whatever the optimistic estimate wrote: the result depends only on
      the post before the estimate and on the server's values. */
  lemma ReconcileOverridesEstimate(p: Post, b: bool, s: LikeState)
    ensures Apply(LikeReconcile(s), Apply(LikeEstimate(b), p)) == Apply(LikeReconcile(s), p)
    ensures Apply(LikeReconcile(s), p).isLiked == s.isLiked
    ensures Apply(LikeReconcile(s), p).likeCount == s.likeCount
  {
  }

  /** The same for shares. */
  lemma ShareReconcileOverridesEstimate(p: Post, s: ShareState)
    ensures Apply(ShareReconcile(s), Apply(ShareEstimate, p)) == Apply(ShareReconcile(s), p)
    ensures Apply(ShareReconcile(s), p).isShared == s.isShared
    ensures Apply(ShareReconcile(s), p).shareCount == s.shareCount
  {
  }

  predicate CountsNonNegative(p: Post) {
    CountOf(p.likeCount) >= 0 && CountOf(p.shareCount) >= 0 && CountOf(p.commentCount) >= 0
  }

  /** Every update keeps the counters non-negative, provided the server's own values are. */
  predicate ServerValuesNonNegative(u: PostUpdate) {
    match u
    case LikeReconcile(s) => CountOf(s.likeCount) >= 0
    case ShareReconcile(s) => CountOf(s.shareCount) >= 0
    case _ => true
  }

  lemma CountsStayNonNegative(u: PostUpdate, p: Post)
    requires CountsNonNegative(p) && ServerValuesNonNegative(u)
    ensures CountsNonNegative(Apply(u, p))
  {
  }

  /** `posts.map(post => post._id === id ? Apply(u, post) : post)`: same length, same order,
      the posts with that id rewritten and every other post untouched. */
  function UpdatePosts(posts: seq<Post>, id: string, u: PostUpdate): (r: seq<Post>)
    ensures |r| == |posts|
    ensures forall i :: 0 <= i < |posts| && posts[i].id == id ==> r[i] == Apply(u, posts[i])
    ensures forall i :: 0 <= i < |posts| && posts[i].id != id ==> r[i] == posts[i]
  {
    if posts == [] then []
    else [if posts[0].id == id then Apply(u, posts[0]) else posts[0]] + UpdatePosts(posts[1..], id, u)
  }

  function Ids(posts: seq<Post>): (r: seq<string>)
    ensures |r| == |posts| && forall i :: 0 <= i < |posts| ==> r[i] == posts[i].id
  {
    seq(|posts|, i requires 0 <= i < |posts| => posts[i].id)
  }

  /** An update keeps the list's ids and their order. */
  lemma UpdateKeepsIds(posts: seq<Post>, id: string, u: PostUpdate)
    ensures Ids(UpdatePosts(posts, id, u)) == Ids(posts)
  {
  }

  /** An update aimed at an id that is not in the list changes nothing. */
  lemma UpdateOfMissingIdIsIdentity(posts: seq<Post>, id: string, u: PostUpdate)
    requires forall i :: 0 <= i < |posts| ==> posts[i].id != id
    ensures UpdatePosts(posts, id, u) == posts
  {
  }

  /** Two updates with the same id compose pointwise. */
  lemma {:induction false} UpdateTwice(posts: seq<Post>, id: string, u: PostUpdate, v: PostUpdate, w: PostUpdate)
    requires forall p: Post :: Apply(v, Apply(u, p)) == Apply(w, p)
    ensures UpdatePosts(UpdatePosts(posts, id, u), id, v) == UpdatePosts(posts, id, w)
  {
    var a := UpdatePosts(UpdatePosts(posts, id, u), id, v);
    var b := UpdatePosts(posts, id, w);
    forall i | 0 <= i < |posts| ensures a[i] == b[i] {
      if posts[i].id == id {
        assert UpdatePosts(posts, id, u)[i] == Apply(u, posts[i]);
        assert Apply(u, posts[i]).id == id;
        assert a[i] == Apply(v, Apply(u, posts[i]));
      }
    }
  }

  /** Reconciling a like after its optimistic estimate leaves the list exactly as reconciling
      alone would: the server's values win whatever the estimate was. */
  lemma ReconciledListIgnoresEstimate(posts: seq<Post>, id: string, b: bool, s: LikeState)
    ensures UpdatePosts(UpdatePosts(posts, id, LikeEstimate(b)), id, LikeReconcile(s))
         == UpdatePosts(posts, id, LikeReconcile(s))
  {
    forall p: Post ensures Apply(LikeReconcile(s), Apply(LikeEstimate(b), p)) == Apply(LikeReconcile(s), p) {
      ReconcileOverridesEstimate(p, b, s);
    }
    UpdateTwice(posts, id, LikeEstimate(b), LikeReconcile(s), LikeReconcile(s));
  }

  /** Like then unlike over the whole list: every count is what it was and the matching posts
      end up not liked. */
  lemma LikeThenUnlikeOverList(posts: seq<Post>, id: string)
    requires forall i :: 0 <= i < |posts| ==> CountOf(posts[i].likeCount) >= 0
    ensures var r := UpdatePosts(UpdatePosts(posts, id, LikeEstimate(true)), id, LikeEstimate(false));
            |r| == |posts| &&
            (forall i :: 0 <= i < |posts| ==> CountOf(r[i].likeCount) == CountOf(posts[i].likeCount)) &&
            (forall i :: 0 <= i < |posts| && posts[i].id == id ==> !r[i].isLiked)
  {
    var m := UpdatePosts(posts, id, LikeEstimate(true));
    var r := UpdatePosts(m, id, LikeEstimate(false));
    forall i | 0 <= i < |posts|
      ensures CountOf(r[i].likeCount) == CountOf(posts[i].likeCount)
      ensures posts[i].id == id ==> !r[i].isLiked
    {
      if posts[i].id == id {
        assert m[i] == Apply(LikeEstimate(true), posts[i]);
        LikeThenUnlikeRestoresCount(posts[i]);
      }
    }
  }
}
