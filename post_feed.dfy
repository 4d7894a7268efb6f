/** The list of posts (src/components/organisms/PostFeed/PostFeed.js): a choice among four
    views by priority, the footer under the list, and the guard on "load more". */
module PostFeed {
  import opened Common
  import opened Posts

  /** An error passed in by the container. */
  datatype FeedError = FeedError(message: Option<string>)

  /** The props as passed: an absent prop takes its default. */
  datatype Props = Props(
    posts: Option<seq<Post>>,
    loading: Option<bool>,
    error: Option<FeedError>,
    hasNextPage: Option<bool>,
    isFetchingNextPage: Option<bool>,
    hasOnLoadMore: bool)

  /** The props after JavaScript's default parameters. */
  datatype Resolved = Resolved(
    posts: seq<Post>, loading: bool, error: Option<FeedError>,
    hasNextPage: bool, isFetchingNextPage: bool, hasOnLoadMore: bool)

  function WithDefaults(p: Props): (r: Resolved)
    ensures p.posts.None? ==> r.posts == []
    ensures p.loading.None? ==> !r.loading
    ensures r.error == p.error
    ensures p.hasNextPage.None? ==> !r.hasNextPage
    ensures p.isFetchingNextPage.None? ==> !r.isFetchingNextPage
    ensures p.posts.Some? ==> r.posts == p.posts.value
    ensures p.loading.Some? ==> r.loading == p.loading.value
    ensures p.hasNextPage.Some? ==> r.hasNextPage == p.hasNextPage.value
    ensures p.isFetchingNextPage.Some? ==> r.isFetchingNextPage == p.isFetchingNextPage.value
    ensures r.hasOnLoadMore == p.hasOnLoadMore
  {
    Resolved(p.posts.GetOr([]), p.loading.GetOr(false), p.error,
             p.hasNextPage.GetOr(false), p.isFetchingNextPage.GetOr(false), p.hasOnLoadMore)
  }

  /** What is rendered under the cards. */
  datatype Footer = Footer(spinner: bool, loadMoreButton: bool, endMessage: bool)

  datatype View =
    | LoadingView
    | ErrorView(message: string)
    | EmptyView
    | ListView(cards: seq<Post>, footer: Footer)

  function FooterOf(r: Resolved): (f: Footer)
    ensures f.spinner <==> r.isFetchingNextPage
    ensures f.loadMoreButton <==> r.hasNextPage && !r.isFetchingNextPage
    ensures f.endMessage <==> !r.hasNextPage && |r.posts| > 0
  {
    Footer(r.isFetchingNextPage, r.hasNextPage && !r.isFetchingNextPage, !r.hasNextPage && |r.posts| > 0)
  }

  /** Loading first, then the error, then the empty list, and only then the cards, one per
      post in the given order. */
  function Render(p: Props): (v: View)
    ensures var r := WithDefaults(p);
            (r.loading ==> v == LoadingView) &&
            (!r.loading && r.error.Some? ==> v == ErrorView(OrElse(r.error.value.message, "Failed to load posts"))) &&
            (!r.loading && r.error.None? && r.posts == [] ==> v == EmptyView) &&
            (v.ListView? <==> !r.loading && r.error.None? && r.posts != []) &&
            (v.ListView? ==> v.cards == r.posts && v.footer == FooterOf(r))
  {
    var r := WithDefaults(p);
    if r.loading then LoadingView
    else if r.error.Some? then ErrorView(OrElse(r.error.value.message, "Failed to load posts"))
    else if |r.posts| == 0 then EmptyView
    else ListView(r.posts, FooterOf(r))
  }

  /** `handleLoadMore`: the callback is called only when there is a next page, none is being
      fetched, and the callback exists. */
  function LoadMoreFires(p: Props): (fires: bool)
    ensures fires <==> p.hasNextPage == Some(true) && p.isFetchingNextPage != Some(true) && p.hasOnLoadMore
  {
    var r := WithDefaults(p);
    r.hasNextPage && !r.isFetchingNextPage && r.hasOnLoadMore
  }

  /** The load-more button and the end message are never shown together, and a shown button
      fires whenever the parent passed the callback. */
  lemma FooterConsistent(p: Props)
    ensures var v := Render(p);
            v.ListView? ==> !(v.footer.loadMoreButton && v.footer.endMessage)
    ensures var v := Render(p);
            v.ListView? && v.footer.loadMoreButton && p.hasOnLoadMore ==> LoadMoreFires(p)
  {
  }
}
