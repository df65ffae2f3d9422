/**
  The mapping from one raw listing entry of the source API to the feed's
  article shape (the `children.map` of NewsFeed.js). Only the three fields the
  mapping reads are kept; `selftext` may be absent or null, which the model
  writes as `None`.
 */
module Entries {
  import opened Wrappers

  /** The placeholder description used when an entry has no usable self text. */
  const NoDescription: string := "No description available."

  /** `child.data` of one listing entry, restricted to the fields that are read. */
  datatype RawEntry = RawEntry(title: string, selftext: Option<string>, url: string)

  /** One feed item; `url` is the key the list is rendered with. */
  datatype Article = Article(title: string, description: string, url: string)

  /** The JavaScript truthiness of the `selftext` field: only a non-empty string is truthy. */
  predicate HasSelftext(raw: RawEntry) {
    raw.selftext.Some? && raw.selftext.value != ""
  }

  /** Maps one entry: title and url verbatim, the self text or the placeholder. */
  function ToArticle(raw: RawEntry): (a: Article)
    ensures a.title == raw.title && a.url == raw.url
    ensures a.description != ""
    ensures HasSelftext(raw) ==> a.description == raw.selftext.value
    ensures !HasSelftext(raw) ==> a.description == NoDescription
  {
    Article(raw.title, if HasSelftext(raw) then raw.selftext.value else NoDescription, raw.url)
  }

  /** Maps a page of entries, keeping the order of the response. */
  function MapChildren(children: seq<RawEntry>): (r: seq<Article>)
    ensures |r| == |children|
    ensures forall i :: 0 <= i < |r| ==> r[i].title == children[i].title && r[i].url == children[i].url
  {
    seq(|children|, i requires 0 <= i < |children| => ToArticle(children[i]))
  }

  /** The placeholder appears exactly when the self text is missing, empty, or is the placeholder itself. */
  lemma PlaceholderIff(raw: RawEntry)
    ensures ToArticle(raw).description == NoDescription
            <==> raw.selftext.None? || raw.selftext.value == "" || raw.selftext.value == NoDescription
  {
  }

  /** Mapping two pages one after the other is mapping their concatenation at once. */
  lemma MapChildrenAppend(xs: seq<RawEntry>, ys: seq<RawEntry>)
    ensures MapChildren(xs + ys) == MapChildren(xs) + MapChildren(ys)
  {
  }

  /** Each mapped article comes from the entry at the same position, and nothing is added or dropped. */
  lemma MapChildrenAt(children: seq<RawEntry>, i: int)
    requires 0 <= i < |children|
    ensures |MapChildren(children)| == |children|
    ensures MapChildren(children)[i].title == children[i].title
    ensures MapChildren(children)[i].url == children[i].url
    ensures MapChildren(children)[i].description
            == if HasSelftext(children[i]) then children[i].selftext.value else NoDescription
  {
  }
}
