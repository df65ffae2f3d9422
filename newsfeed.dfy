/**
  The `JewelryFeed` component's state cells and the code that updates them
  step by step: `fetchArticles` split at its one suspension point into
  `FetchArticles` (up to sending the request) and `Settle` (after the
  request settles), the effect that calls it, and the observer's callback.
  Each method is specified by the transition of module Pagination that it
  performs; the properties of those transitions are proved there and in
  module Driver.
 */
module NewsFeed {
  import opened Wrappers
  import opened Entries
  import opened Pagination

  class JewelryFeed {
    var articles: seq<Article>
    var after: Cursor
    var loading: bool
    var hasMore: bool

    /** The four cells as one value. */
    function State(): FeedState
      reads this
    {
      FeedState(articles, after, loading, hasMore)
    }

    /** The cells as `useState` initialises them on mount. */
    constructor ()
      ensures State() == Initial
    {
      articles := [];
      after := Token("");
      loading := false;
      hasMore := true;
    }

    /**
      The synchronous part of `fetchArticles`: returns at once while a
      request is in flight; otherwise sets `loading` and sends the request
      for the current cursor.
     */
    method FetchArticles() returns (sent: Option<Request>)
      modifies this
      ensures State() == Start(old(State()))
      ensures Inv(old(State())) && old(hasMore) ==> Inv(State())
      ensures sent == if old(loading) then None else Some(Request(PageLimit, old(after)))
    {
      if loading {
        return None;
      }
      loading := true;
      sent := Some(Request(PageLimit, after));
    }

    /** The part of `fetchArticles` after the request settles with `outcome`. */
    method Settle(outcome: Outcome)
      requires loading
      requires Inv(State())
      modifies this
      ensures State() == Apply(old(State()), outcome)
      ensures Inv(State())
    {
      match outcome {
        case Page(children, next) =>
          var newArticles := MapChildren(children);
          articles := articles + newArticles;
          after := next;
          hasMore := next != Null;
          loading := false;
        case NoData =>
          hasMore := false;
          loading := false;
        case Thrown(_) =>
          loading := false;
      }
    }

    /** The effect: calls `fetchArticles` only while more pages exist. */
    method RunEffect() returns (sent: Option<Request>)
      requires Inv(State())
      modifies this
      ensures State() == Effect(old(State()))
      ensures sent.Some? <==> EffectIssues(old(State()))
      ensures sent.Some? ==> sent.value == RequestFor(old(State()))
      ensures Inv(State())
    {
      sent := None;
      if hasMore {
        sent := FetchArticles();
      }
    }

    /** The observer's callback when the last row becomes visible: `setAfter(prevAfter => prevAfter)`. */
    method OnLastVisible()
      modifies this
      ensures State() == old(State())
    {
      after := after;
    }
  }

  /** A client: a first page with an empty self text, then the end of data. */
  method FirstPageThenEnd() {
    var feed := new JewelryFeed();
    var sent := feed.RunEffect();
    assert sent == Some(Request(10, Token("")));
    feed.Settle(Page([RawEntry("A", Some(""), "u1")], Token("c2")));
    assert feed.articles == [Article("A", "No description available.", "u1")];
    assert feed.after == Token("c2") && feed.hasMore && !feed.loading;
    sent := feed.RunEffect();
    assert sent == Some(Request(10, Token("c2")));
    feed.Settle(Page([], Null));
    assert feed.articles == [Article("A", "No description available.", "u1")];
    assert !feed.hasMore && !feed.loading;
    feed.OnLastVisible();
    sent := feed.RunEffect();
    assert sent == None;
  }

  /** A client: a body without `data`, and a request that throws. */
  method NoDataAndThrown() {
    var feed := new JewelryFeed();
    var sent := feed.RunEffect();
    feed.Settle(Thrown(Transport));
    assert feed.articles == [] && feed.after == Token("") && feed.hasMore && !feed.loading;
    sent := feed.RunEffect();
    assert sent == Some(Request(10, Token("")));
    var again := feed.FetchArticles();
    assert again == None;
    feed.Settle(NoData);
    assert feed.articles == [] && feed.after == Token("") && !feed.hasMore && !feed.loading;
    sent := feed.RunEffect();
    assert sent == None;
  }
}
