/** The load message and the queue a load builds from it: one QueueTrack per
    requested track, in order, all sharing the same optional Cookie header. */
module Queue {
  import opened Wrappers
  import opened Cookies

  /** A requested track; `title` is optional on the wire. */
  datatype TrackInfo = TrackInfo(index: int, url: string, title: Option<string>)

  datatype Metadata = Metadata(bookTitle: string, authorName: string, coverUrl: string)

  datatype LoadMessage = LoadMessage(
    tracks: seq<TrackInfo>,
    startIndex: int,
    rate: real,
    metadata: Metadata)

  /** One queue entry; `headers` is Some(h) for `{ Cookie: h }` and None for `undefined`. */
  datatype QueueTrack = QueueTrack(
    uri: string,
    headers: Option<string>,
    title: string,
    artist: string,
    artworkUrl: string)

  /** What the cookie store answered for the first track's URL: it failed (the
      error is swallowed), or it gave its entries in order. */
  datatype CookieLookup = LookupFailed | Found(cookies: seq<Cookie>)

  /** `t.title || bookTitle`: a missing or empty title falls back to the book's. */
  function DisplayTitle(t: TrackInfo, bookTitle: string): string
  {
    if t.title.Some? && t.title.value != "" then t.title.value else bookTitle
  }

  function Entry(t: TrackInfo, headers: Option<string>, meta: Metadata): QueueTrack
  {
    QueueTrack(t.url, headers, DisplayTitle(t, meta.bookTitle), meta.authorName, meta.coverUrl)
  }

  /** The headers every track of a load carries. Cookies are only looked up when
      the first track has a non-empty URL; a failed lookup or an empty header
      leaves the headers undefined. */
  function HeadersFor(tracks: seq<TrackInfo>, lookup: CookieLookup): (headers: Option<string>)
    ensures headers == None <==>
      |tracks| == 0 || tracks[0].url == "" || lookup.LookupFailed? || lookup.cookies == []
    ensures headers.Some? ==> headers.value != "" && headers.value == CookieHeader(lookup.cookies)
  {
    if |tracks| == 0 || tracks[0].url == "" then None
    else match lookup
      case LookupFailed => None
      case Found(cs) =>
        var h := CookieHeader(cs);
        if h == "" then None else Some(h)
  }

  /** When headers are attached, they can be read back as exactly the cookies the
      store returned. */
  lemma HeadersRoundTrip(tracks: seq<TrackInfo>, lookup: CookieLookup)
    requires lookup.Found? && forall i :: 0 <= i < |lookup.cookies| ==> WellFormed(lookup.cookies[i])
    ensures HeadersFor(tracks, lookup).Some? ==> ParseCookieHeader(HeadersFor(tracks, lookup).value) == lookup.cookies
  {
    if HeadersFor(tracks, lookup).Some? {
      CookieHeaderRoundTrip(lookup.cookies);
    }
  }

  /** `msg.tracks.map(...)`: the queue has one entry per requested track, in
      order; each plays the track's URL, carries the shared headers, shows the
      track's own title when it is non-empty and the book's otherwise, and the
      book's author and cover. */
  function BuildQueue(tracks: seq<TrackInfo>, headers: Option<string>, meta: Metadata): (q: seq<QueueTrack>)
    ensures |q| == |tracks|
    ensures forall i :: 0 <= i < |tracks| ==>
      && q[i].uri == tracks[i].url
      && q[i].headers == headers
      && q[i].title == (if tracks[i].title.Some? && tracks[i].title.value != "" then tracks[i].title.value else meta.bookTitle)
      && q[i].artist == meta.authorName
      && q[i].artworkUrl == meta.coverUrl
    decreases |tracks|
  {
    if |tracks| == 0 then []
    else [Entry(tracks[0], headers, meta)] + BuildQueue(tracks[1..], headers, meta)
  }
}
