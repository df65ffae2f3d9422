/**
  The render projection of the feed: one row per article, keyed by its url,
  the ref for the intersection observer on the last row only, the spinner
  while loading and the end message once the feed has ended.
 */
module Render {
  import opened Entries
  import opened Pagination

  /** One rendered row; `observed` says the row carries the last-article ref. */
  datatype Row = Row(key: string, title: string, description: string, observed: bool)

  datatype View = View(rows: seq<Row>, spinner: bool, endMessage: bool)

  function Render(s: FeedState): (v: View)
    ensures |v.rows| == |s.articles|
    ensures forall i :: 0 <= i < |v.rows| ==>
              v.rows[i].key == s.articles[i].url
              && v.rows[i].title == s.articles[i].title
              && v.rows[i].description == s.articles[i].description
    ensures forall i :: 0 <= i < |v.rows| ==> (v.rows[i].observed <==> i == |v.rows| - 1)
    ensures v.spinner <==> s.loading
    ensures v.endMessage <==> !s.hasMore
  {
    var n := |s.articles|;
    View(seq(n, i requires 0 <= i < n =>
               Row(s.articles[i].url, s.articles[i].title, s.articles[i].description, n == i + 1)),
         s.loading, !s.hasMore)
  }

  /** The number of rows carrying the observer ref. */
  function ObservedCount(rows: seq<Row>): nat
    decreases |rows|
  {
    if rows == [] then 0
    else ObservedCount(rows[..|rows| - 1]) + (if rows[|rows| - 1].observed then 1 else 0)
  }

  lemma {:induction false} NoneObserved(rows: seq<Row>)
    requires forall i :: 0 <= i < |rows| ==> !rows[i].observed
    ensures ObservedCount(rows) == 0
    decreases |rows|
  {
    if rows != [] {
      NoneObserved(rows[..|rows| - 1]);
    }
  }

  /** Exactly one row carries the observer ref, and none when there are no articles. */
  lemma ExactlyOneObserved(s: FeedState)
    ensures ObservedCount(Render(s).rows) == if s.articles == [] then 0 else 1
  {
    var rows := Render(s).rows;
    if rows != [] {
      NoneObserved(rows[..|rows| - 1]);
    }
  }

  /**
    After an append, the rows of the old articles are rendered as before,
    except that the old last row hands the observer ref to the new last row.
   */
  lemma RefMovesOnAppend(s: FeedState, t: FeedState)
    requires |s.articles| < |t.articles| && s.articles <= t.articles
    ensures forall i :: 0 <= i < |s.articles| ==>
              Render(t).rows[i] == Render(s).rows[i].(observed := false)
    ensures Render(t).rows[|t.articles| - 1].observed
  {
  }
}
