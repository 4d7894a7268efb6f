/** The single-post screen (src/screens/PostDetailScreen.js): the `setQueryData` updaters for
    the `["post", id]` entry, which run only after the server answers (no optimistic step,
    no rollback), and the choice of what the screen shows. */
module PostDetail {
  import opened Common
  import opened Text
  import opened Posts

  /** The body of `GET /posts/:id` as cached: an envelope whose `data` is the post. */
  datatype PostEnvelope = PostEnvelope(success: bool, data: Option<Post>)

  /** `{...oldData.data}`: the cached post, or no field at all when `data` is missing. */
  function CachedPost(e: PostEnvelope): Post {
    e.data.GetOr(BlankPost)
  }

  /** The updater shape shared by the three mutations: an absent entry is returned as is;
      otherwise the envelope is kept and its post gets the update. */
  function UpdateEntry(entry: Option<PostEnvelope>, u: PostUpdate): (r: Option<PostEnvelope>)
    ensures entry.None? <==> r.None?
    ensures entry.Some? ==> r.value.success == entry.value.success && r.value.data.Some?
    ensures entry.Some? ==> r.value.data.value == Apply(u, CachedPost(entry.value))
  {
    match entry
    case None => None
    case Some(e) => Some(e.(data := Some(Apply(u, CachedPost(e)))))
  }

  /** Like success: `isLiked` and `likeCount` are read from the response object itself
      (`data.isLiked`), not from a nested `data`. */
  function LikeUpdater(entry: Option<PostEnvelope>, body: InteractionBody<LikeState>): (r: Option<PostEnvelope>)
    ensures entry.None? ==> r.None?
    ensures entry.Some? ==> r.Some? && r.value.data.Some?
    ensures entry.Some? ==> r.value.data.value.isLiked == body.topLevel.isLiked
    ensures entry.Some? ==> r.value.data.value.likeCount == body.topLevel.likeCount
    ensures entry.Some? ==> AgreeExceptLike(CachedPost(entry.value), r.value.data.value)
  {
    UpdateEntry(entry, LikeReconcile(body.topLevel))
  }

  /** Share success: `isShared` and `shareCount` copied the same way. */
  function ShareUpdater(entry: Option<PostEnvelope>, body: InteractionBody<ShareState>): (r: Option<PostEnvelope>)
    ensures entry.None? ==> r.None?
    ensures entry.Some? ==> r.Some? && r.value.data.Some?
    ensures entry.Some? ==> r.value.data.value.isShared == body.topLevel.isShared
    ensures entry.Some? ==> r.value.data.value.shareCount == body.topLevel.shareCount
    ensures entry.Some? ==> AgreeExceptShare(CachedPost(entry.value), r.value.data.value)
  {
    UpdateEntry(entry, ShareReconcile(body.topLevel))
  }

  /** Comment success: one more comment counted, the server's comment last in the list. */
  function CommentUpdater(entry: Option<PostEnvelope>, comment: Comment): (r: Option<PostEnvelope>)
    ensures entry.None? ==> r.None?
    ensures entry.Some? ==> r.Some? && r.value.data.Some?
    ensures entry.Some? ==> CountOf(r.value.data.value.commentCount) == CountOf(CachedPost(entry.value).commentCount) + 1
    ensures entry.Some? ==> CommentsOf(r.value.data.value) == CommentsOf(CachedPost(entry.value)) + [comment]
    ensures entry.Some? ==> AgreeExceptComments(CachedPost(entry.value), r.value.data.value)
  {
    UpdateEntry(entry, CommentAppend(comment))
  }

  /** The entry after a like request: the updater on success, untouched on failure. */
  function AfterLike(entry: Option<PostEnvelope>, outcome: Outcome<InteractionBody<LikeState>>): (r: Option<PostEnvelope>)
    ensures outcome.Failed? ==> r == entry
    ensures outcome.Succeeded? ==> r == LikeUpdater(entry, outcome.body)
  {
    match outcome
    case Succeeded(body) => LikeUpdater(entry, body)
    case Failed(_) => entry
  }

  /** The entry after a share request. */
  function AfterShare(entry: Option<PostEnvelope>, outcome: Outcome<InteractionBody<ShareState>>): (r: Option<PostEnvelope>)
    ensures outcome.Failed? ==> r == entry
    ensures outcome.Succeeded? ==> r == ShareUpdater(entry, outcome.body)
  {
    match outcome
    case Succeeded(body) => ShareUpdater(entry, body)
    case Failed(_) => entry
  }

  /** The entry after a comment request whose text passed the guard. */
  function AfterComment(entry: Option<PostEnvelope>, outcome: Outcome<Comment>): (r: Option<PostEnvelope>)
    ensures outcome.Failed? ==> r == entry
    ensures outcome.Succeeded? ==> r == CommentUpdater(entry, outcome.body)
  {
    match outcome
    case Succeeded(c) => CommentUpdater(entry, c)
    case Failed(_) => entry
  }

  /** Unlike the feed, the detail screen reads the like state from the top level of the
      response. When the server puts it only under a nested `data` (the shape the feed reads),
      the detail screen writes `isLiked` false and drops the count. */
  lemma DetailReadsTopLevelOnly(e: PostEnvelope, s: LikeState)
    ensures var r := LikeUpdater(Some(e), InteractionBody(LikeState(false, None), Some(s)));
            r.Some? && r.value.data.Some? && !r.value.data.value.isLiked && r.value.data.value.likeCount.None?
  {
  }

  /** An error from the query (`error.message || "Failed to load post"`). */
  datatype QueryError = QueryError(message: Option<string>)

  datatype DetailView = Spinner | NotFound(message: string) | Card(post: Post)

  const MissingPostMessage := "The post you're looking for doesn't exist or has been removed."

  /** What the screen renders: the spinner while loading, then the error, then a missing post,
      and only otherwise the post card. */
  function SelectView(isLoading: bool, error: Option<QueryError>, postData: Option<PostEnvelope>): (v: DetailView)
    ensures isLoading ==> v == Spinner
    ensures !isLoading && error.Some? ==> v == NotFound(OrElse(error.value.message, "Failed to load post"))
    ensures !isLoading && error.None? && (postData.None? || postData.value.data.None?) ==> v == NotFound(MissingPostMessage)
    ensures v.Card? <==> !isLoading && error.None? && postData.Some? && postData.value.data.Some?
    ensures v.Card? ==> v.post == postData.value.data.value
  {
    if isLoading then Spinner
    else if error.Some? then NotFound(OrElse(error.value.message, "Failed to load post"))
    else if postData.None? || postData.value.data.None? then NotFound(MissingPostMessage)
    else Card(postData.value.data.value)
  }
}
