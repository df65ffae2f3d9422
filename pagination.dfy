/**
  The pagination state of the jewelry feed and its transitions as pure
  functions: starting a fetch (the `loading` guard of `fetchArticles`),
  applying the outcome of the request, the effect that starts a fetch while
  more pages exist, and the guard under which the last row arms the
  intersection observer. The class in module NewsFeed performs these same
  transitions on its fields.
 */
module Pagination {
  import opened Wrappers
  import opened Entries

  /** The `after` paging cursor: an opaque token, or `null` for end of data. */
  datatype Cursor = Null | Token(value: string)

  /** The page size sent with every request (`limit=10`). */
  const PageLimit: nat := 10

  /** What one request asks the source for. */
  datatype Request = Request(limit: nat, after: Cursor)

  /** Why a request threw before any state was set. */
  datatype ErrorKind =
    | Transport       // `fetch` rejected
    | BadJson         // `response.json()` rejected
    | MissingChildren // `data.data.children` is not a list, or an entry has no `data`

  /** The outcome of one request, as the `try` block sees it. */
  datatype Outcome =
    | Page(children: seq<RawEntry>, after: Cursor) // `data.data` present and every entry mapped
    | NoData                                       // the parsed body or its `data` field is missing
    | Thrown(kind: ErrorKind)                      // the `catch` branch

  /** The four state cells of the component. */
  datatype FeedState = FeedState(articles: seq<Article>, after: Cursor, loading: bool, hasMore: bool)

  /** The state on mount: no articles, the empty cursor, idle, more to load. */
  const Initial: FeedState := FeedState([], Token(""), false, true)

  /**
    What every state reachable from `Initial` satisfies: a `null` cursor has
    ended the feed, and an ended feed has nothing in flight.
   */
  predicate Inv(s: FeedState) {
    (s.after.Null? ==> !s.hasMore) && (!s.hasMore ==> !s.loading)
  }

  /**
    The request `fetchArticles` sends from state `s`: the fixed page size and
    the current cursor. While more pages exist, that cursor is never `null`.
   */
  function RequestFor(s: FeedState): (r: Request)
    ensures r.limit == 10 && r.after == s.after
    ensures Inv(s) && s.hasMore ==> r.after.Token?
  {
    Request(PageLimit, s.after)
  }

  /** Starting a fetch: a no-op while one is in flight, otherwise only `loading` is set. */
  function Start(s: FeedState): (r: FeedState)
    ensures s.loading ==> r == s
    ensures r.loading
    ensures r.articles == s.articles && r.after == s.after && r.hasMore == s.hasMore
  {
    if s.loading then s else s.(loading := true)
  }

  /** Applying the outcome of the request in flight. */
  function Apply(s: FeedState, o: Outcome): (r: FeedState)
    ensures !r.loading
    ensures s.articles <= r.articles
    ensures o.Page? ==> r.articles == s.articles + MapChildren(o.children)
                        && r.after == o.after
                        && (r.hasMore <==> o.after != Null)
    ensures o.NoData? ==> r.articles == s.articles && r.after == s.after && !r.hasMore
    ensures o.Thrown? ==> r.articles == s.articles && r.after == s.after && r.hasMore == s.hasMore
  {
    match o
    case Page(children, next) =>
      s.(articles := s.articles + MapChildren(children), after := next, hasMore := next != Null, loading := false)
    case NoData =>
      s.(hasMore := false, loading := false)
    case Thrown(_) =>
      s.(loading := false)
  }

  /**
    The effect: calls `fetchArticles` only while more pages exist. It never
    touches the articles, the cursor or `hasMore`; afterwards a fetch is in
    flight exactly when one already was or more pages exist.
   */
  function Effect(s: FeedState): (r: FeedState)
    ensures r.articles == s.articles && r.after == s.after && r.hasMore == s.hasMore
    ensures r.loading <==> s.loading || s.hasMore
  {
    if s.hasMore then Start(s) else s
  }

  /** Whether running the effect in `s` sends a request. */
  predicate EffectIssues(s: FeedState) {
    s.hasMore && !s.loading
  }

  /**
    The guard of the last row's ref callback: when it passes, the callback
    arms an intersection observer on that row. With no articles there is no
    last row, so the callback never runs whatever the guard says. The guard
    passes exactly when running the effect would start a fetch.
   */
  function ObserverArmed(s: FeedState): (b: bool)
    ensures b <==> Effect(s) != s
    ensures b ==> Start(s) == Effect(s)
  {
    !s.loading && s.hasMore
  }

  /** The effect sends a request exactly when it changes the state, and then it only sets `loading`. */
  lemma EffectIssuesIff(s: FeedState)
    ensures EffectIssues(s) <==> Effect(s) != s
    ensures EffectIssues(s) ==> Effect(s) == s.(loading := true)
  {
  }

  /** The initial state satisfies the invariant, and the effect and every outcome preserve it. */
  lemma InvPreserved(s: FeedState, o: Outcome)
    requires Inv(s)
    ensures Inv(Initial)
    ensures Inv(Effect(s))
    ensures Inv(Apply(s, o))
  {
  }

  /** Once the feed has ended, neither the effect nor the observer can start a fetch. */
  lemma EndedStaysEnded(s: FeedState)
    requires !s.hasMore
    ensures Effect(s) == s && !EffectIssues(s) && !ObserverArmed(s)
  {
  }
}
