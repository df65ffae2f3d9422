/**
  A sequential driver for the feed: the runtime's re-rendering and the
  browser's observer are replaced by an explicit trace of events, each of
  which is one of the three things that can touch the pagination state.
 */
module Driver {
  import opened Entries
  import opened Pagination

  datatype Event =
    | EffectRuns          // the effect's body runs (mount, or a dependency changed)
    | LastVisible         // the observed last row intersects the viewport
    | Response(o: Outcome) // the request in flight settles with outcome `o`

  /**
    One event. The visibility callback's update `prevAfter => prevAfter` is
    the identity; a response can only arrive while a request is in flight.
   */
  function Step(s: FeedState, e: Event): (r: FeedState)
    ensures s.articles <= r.articles
    ensures e.LastVisible? ==> r == s
    ensures e.Response? && !s.loading ==> r == s
    ensures Inv(s) ==> Inv(r)
  {
    match e
    case EffectRuns => Effect(s)
    case LastVisible => s.(after := s.after)
    case Response(o) => if s.loading then Apply(s, o) else s
  }

  /** Whether event `e` in state `s` sends a request. */
  predicate Issues(s: FeedState, e: Event) {
    e.EffectRuns? && EffectIssues(s)
  }

  /** Whether event `e` in state `s` settles the request in flight. */
  predicate Settles(s: FeedState, e: Event) {
    e.Response? && s.loading
  }

  function Run(s: FeedState, es: seq<Event>): FeedState
    decreases |es|
  {
    if es == [] then s else Run(Step(s, es[0]), es[1..])
  }

  /** The requests a trace sends, in order. */
  function Requests(s: FeedState, es: seq<Event>): seq<Request>
    decreases |es|
  {
    if es == [] then []
    else (if Issues(s, es[0]) then [RequestFor(s)] else []) + Requests(Step(s, es[0]), es[1..])
  }

  /** How many requests a trace settles. */
  function Settled(s: FeedState, es: seq<Event>): nat
    decreases |es|
  {
    if es == [] then 0
    else (if Settles(s, es[0]) then 1 else 0) + Settled(Step(s, es[0]), es[1..])
  }

  /** The raw entries that event `e` applies in state `s`: those of a page settling the request in flight. */
  function Applied(s: FeedState, e: Event): seq<RawEntry> {
    if Settles(s, e) && e.o.Page? then e.o.children else []
  }

  /** The raw entries of every page a trace applies, in order. */
  function Delivered(s: FeedState, es: seq<Event>): seq<RawEntry>
    decreases |es|
  {
    if es == [] then [] else Applied(s, es[0]) + Delivered(Step(s, es[0]), es[1..])
  }

  function InFlight(s: FeedState): nat {
    if s.loading then 1 else 0
  }

  /**
    The article list only grows by appending: after any trace it is the old
    list followed by the mapped entries of the applied pages, in order.
   */
  lemma {:induction false} RunAppendsDelivered(s: FeedState, es: seq<Event>)
    ensures Run(s, es).articles == s.articles + MapChildren(Delivered(s, es))
    ensures s.articles <= Run(s, es).articles
    decreases |es|
  {
    if es == [] {
      assert MapChildren([]) == [];
    } else {
      var t, page, rest := Step(s, es[0]), Applied(s, es[0]), Delivered(Step(s, es[0]), es[1..]);
      StepAppends(s, es[0]);
      RunAppendsDelivered(t, es[1..]);
      MapChildrenAppend(page, rest);
      calc {
        Run(s, es).articles;
        Run(t, es[1..]).articles;
        t.articles + MapChildren(rest);
        (s.articles + MapChildren(page)) + MapChildren(rest);
        s.articles + (MapChildren(page) + MapChildren(rest));
        s.articles + MapChildren(Delivered(s, es));
      }
    }
  }

  /** One event appends the mapped entries it applies, and nothing else, to the article list. */
  lemma StepAppends(s: FeedState, e: Event)
    ensures Step(s, e).articles == s.articles + MapChildren(Applied(s, e))
  {
  }

  /** Every trace from a state satisfying the invariant ends in one. */
  lemma {:induction false} RunKeepsInv(s: FeedState, es: seq<Event>)
    requires Inv(s)
    ensures Inv(Run(s, es))
    decreases |es|
  {
    if es != [] {
      InvPreserved(s, if es[0].Response? then es[0].o else NoData);
      RunKeepsInv(Step(s, es[0]), es[1..]);
    }
  }

  /**
    Fetches never overlap: every request sent is matched by a settled one or
    is the one still in flight.
   */
  lemma {:induction false} InFlightBalance(s: FeedState, es: seq<Event>)
    ensures |Requests(s, es)| + InFlight(s) == Settled(s, es) + InFlight(Run(s, es))
    decreases |es|
  {
    if es != [] {
      InFlightBalance(Step(s, es[0]), es[1..]);
    }
  }

  /** From mount, at most one request is outstanding after any trace. */
  lemma AtMostOneInFlight(es: seq<Event>)
    ensures Settled(Initial, es) <= |Requests(Initial, es)| <= Settled(Initial, es) + 1
    ensures Run(Initial, es).loading <==> |Requests(Initial, es)| == Settled(Initial, es) + 1
  {
    InFlightBalance(Initial, es);
  }

  /** End of data is terminal: nothing changes and no request is sent any more. */
  lemma {:induction false} EndIsTerminal(s: FeedState, es: seq<Event>)
    requires Inv(s) && !s.hasMore
    ensures Run(s, es) == s
    ensures Requests(s, es) == []
    decreases |es|
  {
    if es != [] {
      assert Step(s, es[0]) == s;
      EndIsTerminal(s, es[1..]);
    }
  }

  /** Every request carries a token cursor, never the end-of-data `null`. */
  lemma {:induction false} RequestsCarryTokens(s: FeedState, es: seq<Event>)
    requires Inv(s)
    ensures forall r :: r in Requests(s, es) ==> r.after.Token? && r.limit == PageLimit
    decreases |es|
  {
    if es != [] {
      InvPreserved(s, if es[0].Response? then es[0].o else NoData);
      RequestsCarryTokens(Step(s, es[0]), es[1..]);
    }
  }

  /**
    The cursor of a page is echoed verbatim by the next request: after a page
    settles, the effect asks for its `after` exactly when that is not `null`.
   */
  lemma NextRequestEchoesCursor(s: FeedState, children: seq<RawEntry>, next: Cursor)
    requires s.loading
    ensures Requests(s, [Response(Page(children, next)), EffectRuns])
            == if next.Token? then [Request(PageLimit, next)] else []
  {
    var es := [Response(Page(children, next)), EffectRuns];
    assert es[1..] == [EffectRuns];
    var t := Step(s, es[0]);
    assert Requests(t, [EffectRuns]) == (if Issues(t, EffectRuns) then [RequestFor(t)] else []) + Requests(Effect(t), []);
  }

  /**
    A thrown request leaves everything but `loading` as it was, so the next
    run of the effect asks again for the same cursor.
   */
  lemma ThrownThenEffectRetries(s: FeedState, k: ErrorKind)
    requires s.loading && s.hasMore
    ensures Run(s, [Response(Thrown(k))]) == s.(loading := false)
    ensures Requests(s, [Response(Thrown(k)), EffectRuns]) == [RequestFor(s)]
  {
    var es := [Response(Thrown(k)), EffectRuns];
    assert es[1..] == [EffectRuns];
    var t := Step(s, es[0]);
    assert Requests(t, [EffectRuns]) == (if Issues(t, EffectRuns) then [RequestFor(t)] else []) + Requests(Effect(t), []);
  }

  /** A response without `data` ends the feed at once and keeps the articles and the cursor. */
  lemma NoDataEndsFeed(s: FeedState, es: seq<Event>)
    requires s.loading
    ensures Run(s, [Response(NoData)]) == s.(loading := false, hasMore := false)
    ensures Requests(s, [Response(NoData)] + es) == []
  {
    var t := Step(s, Response(NoData));
    assert ([Response(NoData)] + es)[1..] == es;
    EndIsTerminal(t, es);
  }
}
