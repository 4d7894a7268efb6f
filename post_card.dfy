/** One post in a list (src/components/molecules/PostCard/PostCard.js): its click handlers
    forward intents to the optional callbacks, and a one-bit state says whether the comment
    modal is open. */
module PostCard {
  import opened Common
  import opened Posts

  /** A call the card makes on one of its callbacks. */
  datatype Intent =
    | Like(postId: string, newIsLiked: bool)
    | Share(postId: string)
    | CommentOn(postId: string, text: string)
    | OpenProfile(userId: string)

  /** Which callbacks the parent passed. */
  datatype Callbacks = Callbacks(onLike: bool, onShare: bool, onComment: bool, onUserClick: bool)

  /** A like click requests the opposite of the post's current state. */
  function LikeClick(post: Post, cbs: Callbacks): (i: Option<Intent>)
    ensures i.Some? <==> cbs.onLike
    ensures i.Some? ==> i.value == Like(post.id, !post.isLiked)
  {
    if cbs.onLike then Some(Like(post.id, !post.isLiked)) else None
  }

  function ShareClick(post: Post, cbs: Callbacks): (i: Option<Intent>)
    ensures i.Some? <==> cbs.onShare
    ensures i.Some? ==> i.value == Share(post.id)
  {
    if cbs.onShare then Some(Share(post.id)) else None
  }

  /** The modal's text is forwarded unchanged with the post's id. */
  function CommentSubmit(post: Post, cbs: Callbacks, text: string): (i: Option<Intent>)
    ensures i.Some? <==> cbs.onComment
    ensures i.Some? ==> i.value == CommentOn(post.id, text)
  {
    if cbs.onComment then Some(CommentOn(post.id, text)) else None
  }

  /** A click on the author fires only with a callback and a (truthy) author id. */
  function UserClick(post: Post, cbs: Callbacks): (i: Option<Intent>)
    ensures i.Some? <==> cbs.onUserClick && post.authorId.Some? && post.authorId.value != ""
    ensures i.Some? ==> i.value == OpenProfile(post.authorId.value)
  {
    if cbs.onUserClick && Truthy(post.authorId) then Some(OpenProfile(post.authorId.value)) else None
  }

  /** The three counters as displayed, each `|| 0`. */
  datatype Counters = Counters(likes: int, comments: int, shares: int)

  function DisplayedCounts(post: Post): (c: Counters)
    ensures post.likeCount.None? ==> c.likes == 0
    ensures post.commentCount.None? ==> c.comments == 0
    ensures post.shareCount.None? ==> c.shares == 0
    ensures post.likeCount.Some? ==> c.likes == post.likeCount.value
    ensures post.commentCount.Some? ==> c.comments == post.commentCount.value
    ensures post.shareCount.Some? ==> c.shares == post.shareCount.value
  {
    Counters(CountOf(post.likeCount), CountOf(post.commentCount), CountOf(post.shareCount))
  }

  /** Clicking like twice, the second time on the post as the feed's estimate left it, gives
      back the original flag and count, unless the post was liked with a count of 0 (the
      clamp then turns the second click into a net gain of one). */
  lemma {:induction false} DoubleClickRestores(p: Post)
    requires CountOf(p.likeCount) >= 0
    requires p.isLiked ==> CountOf(p.likeCount) >= 1
    ensures var q := Apply(LikeEstimate(!p.isLiked), p);
            var r := Apply(LikeEstimate(!q.isLiked), q);
            r.isLiked == p.isLiked && CountOf(r.likeCount) == CountOf(p.likeCount)
  {
    var q := Apply(LikeEstimate(!p.isLiked), p);
    LikeEstimateEffect(p, !p.isLiked);
    LikeEstimateEffect(q, !q.isLiked);
  }

  /** The card's own state: the post it shows and whether its comment modal is open. */
  class Card {
    const post: Post
    var isCommentModalOpen: bool

    constructor (post: Post)
      ensures this.post == post && !isCommentModalOpen
    {
      this.post := post;
      isCommentModalOpen := false;
    }

    /** The comment button opens the modal. */
    method HandleComment()
      modifies this
      ensures isCommentModalOpen
    {
      isCommentModalOpen := true;
    }

    /** The modal's `onClose` closes it. */
    method CloseModal()
      modifies this
      ensures !isCommentModalOpen
    {
      isCommentModalOpen := false;
    }
  }
}
