/** The home-feed container (src/components/hocs/withHomepageScreen.js): the requested page,
    the posts accumulated across pages, and the `["feed", page]` entries of the query cache,
    updated by the query and mutation callbacks. Each callback is one atomic step. A
    mutation's callbacks keep the options of the render in which `mutate` ran, so they write
    to the page that was current at the click; that page and the snapshot that `onMutate`
    returns are handed to the matching success and failure steps. */
module Feed {
  import opened Common
  import opened Text
  import opened Posts

  datatype Pagination = Pagination(hasNext: bool)

  /** One page as the feed endpoint returns it and the cache stores it. */
  datatype FeedPage = FeedPage(posts: seq<Post>, pagination: Option<Pagination>)

  /** What a mutation's callbacks hold: the page captured when `mutate` ran, and the
      `previousData` snapshot that `onMutate` returned. */
  datatype MutationContext = MutationContext(page: int, previousData: Option<FeedPage>)

  /** What a share click does. */
  datatype ShareDispatch =
    | CopyLinkOnly(path: string)                 // no user: copy the link, track nothing
    | TrackShare(context: MutationContext)       // mutation issued after the optimistic step

  /** What a failed share leads to besides the rollback. */
  datatype ShareFailureReaction = GoToLogin | ShowShareError

  /** `onSuccess` of the feed query: page 1 replaces the list, later pages append. */
  function Accumulate(prev: seq<Post>, page: int, received: seq<Post>): seq<Post> {
    if page == 1 then received else prev + received
  }

  /** The posts of `pages` received in order for the pages `first`, `first + 1`, ... */
  function ReceivePages(prev: seq<Post>, first: int, pages: seq<seq<Post>>): seq<Post>
    decreases |pages|
  {
    if pages == [] then prev
    else ReceivePages(Accumulate(prev, first, pages[0]), first + 1, pages[1..])
  }

  function Concat(pages: seq<seq<Post>>): seq<Post>
    decreases |pages|
  {
    if pages == [] then [] else pages[0] + Concat(pages[1..])
  }

  /** Pages after the first only ever append, in arrival order. */
  lemma {:induction false} LaterPagesAppend(prev: seq<Post>, first: int, pages: seq<seq<Post>>)
    requires first >= 2
    ensures ReceivePages(prev, first, pages) == prev + Concat(pages)
    decreases |pages|
  {
    if pages != [] {
      LaterPagesAppend(prev + pages[0], first + 1, pages[1..]);
      assert prev + pages[0] + Concat(pages[1..]) == prev + (pages[0] + Concat(pages[1..]));
    }
  }

  /** Receiving pages 1, 2, ..., n yields all their posts in order, whatever was accumulated
      before page 1 arrived. */
  lemma {:induction false} PagesAccumulateInOrder(prev: seq<Post>, pages: seq<seq<Post>>)
    requires |pages| >= 1
    ensures ReceivePages(prev, 1, pages) == Concat(pages)
  {
    LaterPagesAppend(pages[0], 2, pages[1..]);
  }

  /** `queryClient.setQueryData(["feed", page], old => old ? {...old, posts: UpdatePosts(...)} : old)`:
      an absent entry stays absent, the other pages are untouched, and the page's pagination
      is kept while its posts get the per-post update. */
  function UpdateCachedPage(cache: map<int, FeedPage>, page: int, id: string, u: PostUpdate): (r: map<int, FeedPage>)
    ensures r.Keys == cache.Keys
    ensures forall k :: k in cache && k != page ==> r[k] == cache[k]
    ensures page in cache ==> r[page].pagination == cache[page].pagination
    ensures page in cache ==> r[page].posts == UpdatePosts(cache[page].posts, id, u)
  {
    if page in cache then cache[page := cache[page].(posts := UpdatePosts(cache[page].posts, id, u))]
    else cache
  }

  /** `handleComment`'s guard: absent or blank text is refused, otherwise the trimmed text is
      what the mutation sends. The detail screen uses the same rule. */
  function CommentToSend(text: Option<string>): (sent: Option<string>)
    ensures sent.None? <==> (text.None? || AllSpace(text.value))
    ensures sent.Some? ==> sent.value == Trim(text.value) && sent.value != []
  {
    if text.None? || Trim(text.value) == [] then None else Some(Trim(text.value))
  }

  /** The reaction to a failed share: 401 asks the user to log in, anything else is a generic
      error. */
  function ShareFailure(status: Option<int>): (r: ShareFailureReaction)
    ensures r == GoToLogin <==> status == Some(401)
  {
    if status == Some(401) then GoToLogin else ShowShareError
  }

  /** `handleUserClick`'s target. */
  function ProfilePathOf(userId: string): string {
    "/profile/" + userId
  }

  /** The comment mutation's variables: `{ postId, text }`. */
  datatype CommentRequest = CommentRequest(postId: string, text: string)

  class FeedContainer {
    var currentPage: int
    var allPosts: seq<Post>
    var cache: map<int, FeedPage>
    /** The page data the query last delivered; shown while a new key has none
        (`keepPreviousData`). */
    var lastData: Option<FeedPage>

    /** The container mounts with page 1, no posts, and whatever the shared query cache
        already holds. */
    constructor (existing: map<int, FeedPage>)
      ensures currentPage == 1 && allPosts == [] && cache == existing && lastData == None
    {
      currentPage := 1;
      allPosts := [];
      cache := existing;
      lastData := None;
    }

    /** `postsData`: the entry of the current page, or the previous data while it has none. */
    function PostsData(): Option<FeedPage>
      reads this
    {
      if currentPage in cache then Some(cache[currentPage]) else lastData
    }

    /** `postsData?.pagination?.hasNext || false`. */
    function HasNextPage(): bool
      reads this
    {
      var d := PostsData();
      d.Some? && d.value.pagination.Some? && d.value.pagination.value.hasNext
    }

    /** The current page's entry in the cache, if any. */
    function CurrentEntry(): Option<FeedPage>
      reads this
    {
      if currentPage in cache then Some(cache[currentPage]) else None
    }

    /** The feed query delivered `data` for the current page. */
    method OnFeedSuccess(data: FeedPage)
      modifies this
      ensures currentPage == old(currentPage)
      ensures cache == old(cache)[currentPage := data] && lastData == Some(data)
      ensures allPosts == Accumulate(old(allPosts), currentPage, data.posts)
      ensures currentPage == 1 ==> allPosts == data.posts
      ensures currentPage != 1 ==> allPosts == old(allPosts) + data.posts
    {
      cache := cache[currentPage := data];
      lastData := Some(data);
      allPosts := Accumulate(allPosts, currentPage, data.posts);
    }

    /** `handleLike` and the like mutation's `onMutate`: capture the current page and its
        entry, then apply the optimistic estimate to `allPosts` and to that entry only. */
    method HandleLike(id: string, newIsLiked: bool) returns (context: MutationContext)
      modifies this
      ensures currentPage == old(currentPage) && lastData == old(lastData)
      ensures context == MutationContext(currentPage, old(CurrentEntry()))
      ensures allPosts == UpdatePosts(old(allPosts), id, LikeEstimate(newIsLiked))
      ensures cache == UpdateCachedPage(old(cache), currentPage, id, LikeEstimate(newIsLiked))
    {
      context := MutationContext(currentPage, CurrentEntry());
      allPosts := UpdatePosts(allPosts, id, LikeEstimate(newIsLiked));
      cache := UpdateCachedPage(cache, currentPage, id, LikeEstimate(newIsLiked));
    }

    /** Like success: the server's nested `data.data` values replace the estimate in
        `allPosts` and in the entry of the page captured at the click. */
    method LikeSucceeded(id: string, body: InteractionBody<LikeState>, context: MutationContext)
      requires body.nested.Some?
      modifies this
      ensures currentPage == old(currentPage) && lastData == old(lastData)
      ensures allPosts == UpdatePosts(old(allPosts), id, LikeReconcile(body.nested.value))
      ensures cache == UpdateCachedPage(old(cache), context.page, id, LikeReconcile(body.nested.value))
    {
      allPosts := UpdatePosts(allPosts, id, LikeReconcile(body.nested.value));
      cache := UpdateCachedPage(cache, context.page, id, LikeReconcile(body.nested.value));
    }

    /** Like failure: the snapshot, if there is one, is written back to the entry of the page
        it was taken from; `allPosts` keeps the optimistic values. */
    method LikeFailed(context: MutationContext)
      modifies this
      ensures currentPage == old(currentPage) && lastData == old(lastData)
      ensures allPosts == old(allPosts)
      ensures context.previousData.Some? ==> cache == old(cache)[context.page := context.previousData.value]
      ensures context.previousData.None? ==> cache == old(cache)
    {
      if context.previousData.Some? {
        cache := cache[context.page := context.previousData.value];
      }
    }

    /** `handleShare`: with no user only the link is copied; otherwise the share mutation's
        `onMutate` captures the current page and its entry and applies the optimistic share. */
    method HandleShare(id: string, user: Option<User>) returns (dispatch: ShareDispatch)
      modifies this
      ensures currentPage == old(currentPage) && lastData == old(lastData)
      ensures user.None? ==> dispatch == CopyLinkOnly("/post/" + id)
      ensures user.None? ==> allPosts == old(allPosts) && cache == old(cache)
      ensures user.Some? ==> dispatch == TrackShare(MutationContext(currentPage, old(CurrentEntry())))
      ensures user.Some? ==> allPosts == UpdatePosts(old(allPosts), id, ShareEstimate)
      ensures user.Some? ==> cache == UpdateCachedPage(old(cache), currentPage, id, ShareEstimate)
    {
      if user.None? {
        dispatch := CopyLinkOnly("/post/" + id);
      } else {
        dispatch := TrackShare(MutationContext(currentPage, CurrentEntry()));
        allPosts := UpdatePosts(allPosts, id, ShareEstimate);
        cache := UpdateCachedPage(cache, currentPage, id, ShareEstimate);
      }
    }

    /** Share success: the server's nested values replace the estimate in `allPosts` and in the
        entry of the page captured at the click, and the post's link (its path under the
        site's origin) is copied to the clipboard. */
    method ShareSucceeded(id: string, body: InteractionBody<ShareState>, context: MutationContext)
      returns (copied: string)
      requires body.nested.Some?
      modifies this
      ensures currentPage == old(currentPage) && lastData == old(lastData)
      ensures allPosts == UpdatePosts(old(allPosts), id, ShareReconcile(body.nested.value))
      ensures cache == UpdateCachedPage(old(cache), context.page, id, ShareReconcile(body.nested.value))
      ensures copied == "/post/" + id
    {
      allPosts := UpdatePosts(allPosts, id, ShareReconcile(body.nested.value));
      cache := UpdateCachedPage(cache, context.page, id, ShareReconcile(body.nested.value));
      copied := "/post/" + id;
    }

    /** Share failure: the same partial rollback as for likes, into the page the snapshot was
        taken from, and a reaction chosen by the error's status. */
    method ShareFailed(context: MutationContext, status: Option<int>) returns (reaction: ShareFailureReaction)
      modifies this
      ensures currentPage == old(currentPage) && lastData == old(lastData)
      ensures allPosts == old(allPosts)
      ensures context.previousData.Some? ==> cache == old(cache)[context.page := context.previousData.value]
      ensures context.previousData.None? ==> cache == old(cache)
      ensures reaction == ShareFailure(status)
    {
      if context.previousData.Some? {
        cache := cache[context.page := context.previousData.value];
      }
      reaction := ShareFailure(status);
    }

    /** `handleComment`: validation only; the comment mutation has no optimistic step. The
        request names the commented post and carries the trimmed text; `page` is the page its
        callbacks will write to. */
    method HandleComment(id: string, text: Option<string>) returns (sent: Option<CommentRequest>, page: int)
      ensures sent.None? <==> (text.None? || AllSpace(text.value))
      ensures sent.Some? ==> sent.value.postId == id && sent.value.text == Trim(text.value)
      ensures page == currentPage
    {
      var body := CommentToSend(text);
      sent := if body.Some? then Some(CommentRequest(id, body.value)) else None;
      page := currentPage;
    }

    /** Comment success: the count goes up and the server's comment is appended, in
        `allPosts` and in the entry of the page current when the comment was sent. */
    method CommentSucceeded(id: string, comment: Comment, page: int)
      modifies this
      ensures currentPage == old(currentPage) && lastData == old(lastData)
      ensures allPosts == UpdatePosts(old(allPosts), id, CommentAppend(comment))
      ensures cache == UpdateCachedPage(old(cache), page, id, CommentAppend(comment))
    {
      allPosts := UpdatePosts(allPosts, id, CommentAppend(comment));
      cache := UpdateCachedPage(cache, page, id, CommentAppend(comment));
    }

    /** `handleRefresh`: back to page 1 with no accumulated posts. */
    method HandleRefresh()
      modifies this
      ensures currentPage == 1 && allPosts == []
      ensures cache == old(cache) && lastData == old(lastData)
    {
      currentPage := 1;
      allPosts := [];
    }

    /** `handleLoadMore`: advance one page only when the last pagination says there is more. */
    method HandleLoadMore()
      modifies this
      ensures old(HasNextPage()) ==> currentPage == old(currentPage) + 1
      ensures !old(HasNextPage()) ==> currentPage == old(currentPage)
      ensures allPosts == old(allPosts) && cache == old(cache) && lastData == old(lastData)
    {
      if HasNextPage() {
        currentPage := currentPage + 1;
      }
    }

    /** The effect on a change of `location.pathname`: arriving at "/" resets like a refresh. */
    method OnPathChange(pathname: string)
      modifies this
      ensures pathname == "/" ==> currentPage == 1 && allPosts == []
      ensures pathname != "/" ==> currentPage == old(currentPage) && allPosts == old(allPosts)
      ensures cache == old(cache) && lastData == old(lastData)
    {
      if pathname == "/" {
        currentPage := 1;
        allPosts := [];
      }
    }

    /** `handleUserClick`'s navigation target; it changes no state. */
    method HandleUserClick(userId: string) returns (target: string)
      ensures StartsWith(target, "/profile/") && target[|"/profile/"|..] == userId
    {
      target := ProfilePathOf(userId);
    }
  }

  /** A like whose request fails: the cache ends as it was before the click (rolled back, or
      never touched when the page had no entry), while `allPosts` keeps the estimate. */
  method LikeRollbackScenario(f: FeedContainer, id: string, newIsLiked: bool)
    modifies f
    ensures f.cache == old(f.cache)
    ensures f.allPosts == UpdatePosts(old(f.allPosts), id, LikeEstimate(newIsLiked))
  {
    var context := f.HandleLike(id, newIsLiked);
    f.LikeFailed(context);
  }

  /** A like that fails after the user has loaded the next page: the rollback still lands on
      the page the like was made on, so the cache ends as it was before the click. */
  method LikeRollbackAfterLoadMoreScenario(f: FeedContainer, id: string, newIsLiked: bool)
    modifies f
    ensures f.cache == old(f.cache)
    ensures f.currentPage == old(f.currentPage) || f.currentPage == old(f.currentPage) + 1
  {
    var context := f.HandleLike(id, newIsLiked);
    f.HandleLoadMore();
    f.LikeFailed(context);
  }

  /** A like whose request succeeds: both views hold exactly the server's values, as if no
      estimate had been made. */
  method LikeSuccessScenario(f: FeedContainer, id: string, newIsLiked: bool, body: InteractionBody<LikeState>)
    requires body.nested.Some?
    modifies f
    ensures f.allPosts == UpdatePosts(old(f.allPosts), id, LikeReconcile(body.nested.value))
    ensures f.cache == UpdateCachedPage(old(f.cache), f.currentPage, id, LikeReconcile(body.nested.value))
  {
    var context := f.HandleLike(id, newIsLiked);
    f.LikeSucceeded(id, body, context);
    ReconciledListIgnoresEstimate(old(f.allPosts), id, newIsLiked, body.nested.value);
    if f.currentPage in old(f.cache) {
      ReconciledListIgnoresEstimate(old(f.cache)[f.currentPage].posts, id, newIsLiked, body.nested.value);
    }
  }
}
