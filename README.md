# Jewelry feed pagination, verified in Dafny

This project models the pagination state machine of the `JewelryFeed`
component (`NewsFeed.js`), an infinite-scroll list of posts read page by
page from a listing API. The component holds four state cells: the
`articles` shown so far, the `after` cursor of the next page (`null` at
end of data), a `loading` flag and a `hasMore` flag. Its `fetchArticles`
callback sends one request for the current cursor. It maps the returned
entries to articles and appends them, then moves the cursor. An effect
calls `fetchArticles` while `hasMore` holds. The last rendered row arms an
intersection observer.

Modules:

- `Wrappers`: the `Option` type used for absent values.
- `Entries`: a raw listing entry, the article it maps to, and the placeholder
  description `"No description available."`.
- `Pagination`: the state, the request, the abstract outcome of a request
  (a page of entries with its next cursor, a body without `data`, or a
  thrown error), and the transitions as pure functions. These are `Start`
  (the `loading` guard), `Apply` (settling an outcome) and `Effect` (the
  `hasMore` guard). The module also holds the observer guard and the
  invariant of reachable states.
- `Driver`: a sequential driver. The runtime's re-rendering and the browser's
  observer are replaced by a trace of events: the effect runs, the last row
  becomes visible, or the request in flight settles. Lemmas over all traces
  prove the following. The list only grows by appending the mapped entries in
  order. Fetches never overlap. End of data is terminal. Every request carries
  a real cursor.
- `Render`: the render projection. It has one row per article keyed by url,
  puts the observer ref on the last row only, shows the spinner while
  `loading`, and shows the end message once `hasMore` is false.
- `NewsFeed`: the class `JewelryFeed` with the four cells as fields. Its
  methods update the fields step by step, as the component's setters do.
  The `ensures` of each of `FetchArticles`, `Settle` and `RunEffect` ties
  the new state to the matching `Pagination` transition; the constructor
  yields `Initial`, and `OnLastVisible` is the identity update. Two client
  methods walk through a first page with an empty self text, the end of
  data, a body without `data`, and a thrown request.

Two behaviours of the code are easy to misread; the model follows the code
in both.

- After a thrown request, the code does retry on its own. `fetchArticles` is
  re-created whenever `loading` changes, and the effect depends on it, so the
  effect runs again and sends the same cursor while `hasMore` holds.
  `Driver.ThrownThenEffectRetries` states this: a thrown outcome followed by a
  run of the effect re-sends the same request.
- The visibility callback does not request a page. It only applies the
  identity update `prevAfter => prevAfter` to the cursor, so in the model that
  event changes nothing (`JewelryFeed.OnLastVisible`, `Driver.Step`).

## Model

| member | source | states |
|---|---|---|
| Entries.ToArticle | Task-1-main/Task-1-main/TASK1/Infinite-Scroll/src/pages/NewsFeed.js:23-27 | title and url are copied verbatim; the description is the self text when that is a non-empty string and the placeholder otherwise, so it is never empty |
| Entries.PlaceholderIff | Task-1-main/Task-1-main/TASK1/Infinite-Scroll/src/pages/NewsFeed.js:25 | an article shows the placeholder exactly when the self text is absent, empty, or is the placeholder text itself |
| Entries.MapChildren | Task-1-main/Task-1-main/TASK1/Infinite-Scroll/src/pages/NewsFeed.js:23-27 | mapping a page yields one article per entry, in response order, each with the entry's title and url |
| Entries.MapChildrenAt | Task-1-main/Task-1-main/TASK1/Infinite-Scroll/src/pages/NewsFeed.js:23-27 | mapping a page keeps its length and order: the i-th article is mapped from the i-th entry |
| Entries.MapChildrenAppend | Task-1-main/Task-1-main/TASK1/Infinite-Scroll/src/pages/NewsFeed.js:23-29 | mapping two pages one after the other gives the same articles as mapping their concatenation |
| Pagination.RequestFor | Task-1-main/Task-1-main/TASK1/Infinite-Scroll/src/pages/NewsFeed.js:18 | a request carries the page size 10 and the current cursor, and that cursor is never null while more pages exist |
| Pagination.Start | Task-1-main/Task-1-main/TASK1/Infinite-Scroll/src/pages/NewsFeed.js:13-14 | while a fetch is in flight, starting one is a no-op; otherwise loading becomes true and articles, cursor and hasMore are unchanged |
| Pagination.Apply | Task-1-main/Task-1-main/TASK1/Infinite-Scroll/src/pages/NewsFeed.js:17-41 | loading ends false and the old list is a prefix of the new one; a page appends its mapped entries in order, takes the page's cursor, and keeps hasMore exactly when that cursor is not null; a body without data clears hasMore and keeps articles and cursor; a thrown error keeps articles, cursor and hasMore |
| Pagination.Effect | Task-1-main/Task-1-main/TASK1/Infinite-Scroll/src/pages/NewsFeed.js:44-48 | the effect never changes the articles, the cursor or hasMore; afterwards a fetch is in flight exactly when one already was or more pages exist |
| Pagination.EffectIssuesIff | Task-1-main/Task-1-main/TASK1/Infinite-Scroll/src/pages/NewsFeed.js:44-48 | the effect sends a request exactly when hasMore holds and nothing is in flight, and then it changes only loading |
| Pagination.ObserverArmed | Task-1-main/Task-1-main/TASK1/Infinite-Scroll/src/pages/NewsFeed.js:50-52 | the guard of the last row's ref callback passes exactly when running the effect would start a fetch, in which case the effect is exactly a start of `fetchArticles` |
| Pagination.InvPreserved | Task-1-main/Task-1-main/TASK1/Infinite-Scroll/src/pages/NewsFeed.js:6-9 | the mount state satisfies the invariant (a null cursor implies the feed has ended; an ended feed has nothing in flight), and the effect and every outcome preserve it |
| Pagination.EndedStaysEnded | Task-1-main/Task-1-main/TASK1/Infinite-Scroll/src/pages/NewsFeed.js:45-52 | once hasMore is false, the effect changes nothing, sends nothing, and the observer is not armed |
| Driver.RunAppendsDelivered | Task-1-main/Task-1-main/TASK1/Infinite-Scroll/src/pages/NewsFeed.js:29 | after any trace the article list is the old list followed by the mapped entries of every applied page, in order, so the old list is a prefix |
| Driver.Step | Task-1-main/Task-1-main/TASK1/Infinite-Scroll/src/pages/NewsFeed.js:44-58 | one event never shrinks the article list and preserves the invariant; the visibility callback is the identity, and a response with nothing in flight changes nothing |
| Driver.StepAppends | Task-1-main/Task-1-main/TASK1/Infinite-Scroll/src/pages/NewsFeed.js:29 | one event appends to the article list exactly the mapped entries of the page it applies, and leaves it unchanged otherwise |
| Driver.RunKeepsInv | Task-1-main/Task-1-main/TASK1/Infinite-Scroll/src/pages/NewsFeed.js:30-33 | every trace from a state satisfying the invariant ends in a state satisfying it |
| Driver.InFlightBalance | Task-1-main/Task-1-main/TASK1/Infinite-Scroll/src/pages/NewsFeed.js:13-14 | requests sent plus the one in flight before equal requests settled plus the one in flight after: fetches never overlap |
| Driver.AtMostOneInFlight | Task-1-main/Task-1-main/TASK1/Infinite-Scroll/src/pages/NewsFeed.js:13-14 | from mount, after any trace at most one request is outstanding, and one is outstanding exactly when loading is true |
| Driver.EndIsTerminal | Task-1-main/Task-1-main/TASK1/Infinite-Scroll/src/pages/NewsFeed.js:45-57 | once hasMore is false, no trace of effects, visibility events or responses changes the state or sends a request |
| Driver.RequestsCarryTokens | Task-1-main/Task-1-main/TASK1/Infinite-Scroll/src/pages/NewsFeed.js:18 | every request sent from a reachable state has a token cursor and the page limit 10 |
| Driver.NextRequestEchoesCursor | Task-1-main/Task-1-main/TASK1/Infinite-Scroll/src/pages/NewsFeed.js:30-31 | after a page settles, the next run of the effect asks for that page's cursor verbatim, and asks for nothing when it is null |
| Driver.ThrownThenEffectRetries | Task-1-main/Task-1-main/TASK1/Infinite-Scroll/src/pages/NewsFeed.js:38-48 | a thrown error only clears loading, and the next run of the effect re-sends the same request |
| Driver.NoDataEndsFeed | Task-1-main/Task-1-main/TASK1/Infinite-Scroll/src/pages/NewsFeed.js:32-37 | a body without data clears loading and hasMore, keeps articles and cursor, and no later event sends a request |
| Render.Render | Task-1-main/Task-1-main/TASK1/Infinite-Scroll/src/pages/NewsFeed.js:65-88 | one row per article with its url as key and its title and description; only the row at index length-1 carries the observer ref; the spinner shows exactly while loading; the end message shows exactly when hasMore is false |
| Render.ExactlyOneObserved | Task-1-main/Task-1-main/TASK1/Infinite-Scroll/src/pages/NewsFeed.js:67-70 | exactly one row carries the observer ref, and none when there are no articles |
| Render.RefMovesOnAppend | Task-1-main/Task-1-main/TASK1/Infinite-Scroll/src/pages/NewsFeed.js:67-86 | after an append the old rows render as before except that the old last row loses the ref to the new last row |
| NewsFeed.JewelryFeed.constructor | Task-1-main/Task-1-main/TASK1/Infinite-Scroll/src/pages/NewsFeed.js:6-9 | the cells start as no articles, the empty cursor, not loading, and more to load |
| NewsFeed.JewelryFeed.FetchArticles | Task-1-main/Task-1-main/TASK1/Infinite-Scroll/src/pages/NewsFeed.js:12-19 | performs Start on the cells and returns the request for the current cursor, or nothing while a fetch is in flight; called while more pages exist, it keeps the invariant |
| NewsFeed.JewelryFeed.Settle | Task-1-main/Task-1-main/TASK1/Infinite-Scroll/src/pages/NewsFeed.js:17-41 | settles the fetch in flight: performs Apply on the cells for the given outcome and keeps the invariant |
| NewsFeed.JewelryFeed.RunEffect | Task-1-main/Task-1-main/TASK1/Infinite-Scroll/src/pages/NewsFeed.js:44-48 | performs Effect on the cells, returns a request exactly when hasMore holds and nothing is in flight, and keeps the invariant |
| NewsFeed.JewelryFeed.OnLastVisible | Task-1-main/Task-1-main/TASK1/Infinite-Scroll/src/pages/NewsFeed.js:54-58 | the visibility callback leaves every cell, the cursor included, unchanged |

## Left out

- The HTTP request, `response.json()` and the URL template are not modelled. A request is the value `Request(limit, after)`, and its result is an abstract `Outcome` passed to `Settle`. Network I/O and JSON parsing are foreign calls.
- `console.log` and `console.error` are not modelled. They only log and do not touch the state.
- The `IntersectionObserver` object, its `disconnect`/`observe` calls and the DOM node are not modelled; these are browser APIs. Only the arming guard (`ObserverArmed`) and the callback's identity update are modelled.
- React's scheduling is not modelled: `useState` batching, `useCallback` closures and when the effect re-runs. The driver instead takes an explicit trace of events in any order.
- Driver.Step: a response event while nothing is in flight is ignored, because no request is outstanding to answer it.
- Updates after unmount are not modelled. The component has no cancellation, and a request that never settles leaves `loading` true for good; in the model that is a trace with no response event.
- `ArticleCard`, `LoadingSpinner`, the JSX markup and the styling are not modelled. A row records only the key, title, description and ref that the component passes on.
- Cursor: only a string or `null` is modelled for `data.data.after`. If the field is missing, the code compares `undefined !== null`, keeps `hasMore` true and echoes `undefined`; the model does not cover that.
- Entries.RawEntry: `title`, `url` and `selftext` are modelled as strings (`selftext` optional). Non-string JSON values in these fields, and their truthiness, are not modelled.
- A malformed body is one outcome. A missing `children` list or an entry without `data` makes the mapping throw before any setter runs, so both are the single outcome `Thrown(MissingChildren)`.
