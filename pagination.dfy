/**
 * The `next` link of a list response. It is rebuilt from the request's scheme and host
 * alone; the request's path and query are dropped, and the cursor is appended as the
 * `next` query parameter.
 */
module Pagination {
  import opened Wrappers

  /** The parts of a request URL that the engine reads. */
  datatype Url = Url(scheme: string, host: string, path: string, query: map<string, string>)

  /** `<scheme>://<host>?next=<cursor>`: it starts with the scheme and ends with the cursor. */
  function NextLink(url: Url, cursor: string): (link: string)
    ensures |link| == |url.scheme| + |url.host| + |cursor| + 9
    ensures link[..|url.scheme|] == url.scheme
    ensures link[|link| - |cursor|..] == cursor
  {
    url.scheme + "://" + url.host + "?next=" + cursor
  }

  /** The link names only scheme and host of the request: path and query make no difference. */
  lemma NextLinkIgnoresPathAndQuery(url: Url, path: string, query: map<string, string>, cursor: string)
    ensures NextLink(url, cursor) == NextLink(url.(path := path, query := query), cursor)
  {
  }

  /** The first position of `c` in `s`. */
  function IndexOf(s: string, c: char): (r: Option<nat>)
    ensures r.None? <==> c !in s
    ensures r.Some? ==> r.value < |s| && s[r.value] == c && c !in s[..r.value]
  {
    if s == [] then None
    else if s[0] == c then Some(0)
    else
      var rest := IndexOf(s[1..], c);
      if rest.None? then None
      else
        assert s[..rest.value + 1] == [s[0]] + s[1..][..rest.value];
        Some(rest.value + 1)
  }

  lemma {:induction false} IndexOfFirst(a: string, c: char, b: string)
    requires c !in a
    ensures IndexOf(a + [c] + b, c) == Some(|a|)
    decreases |a|
  {
    if a != [] {
      assert (a + [c] + b)[1..] == a[1..] + [c] + b;
      IndexOfFirst(a[1..], c, b);
    }
  }

  /** What a client reads back out of a `next` link. */
  datatype LinkParts = LinkParts(scheme: string, host: string, cursor: string)

  /**
   * Reads a `next` link: the scheme runs to the first ':', which must be followed by
   * "//"; the host runs to the first '?', which must be followed by "next="; the rest
   * is the cursor.
   */
  function ParseNextLink(link: string): (parts: Option<LinkParts>)
  {
    match IndexOf(link, ':')
    case None => None
    case Some(i) =>
      var rest := link[i + 1..];
      if |rest| < 2 || rest[..2] != "//" then None
      else
        match ParseHostAndCursor(rest[2..])
        case None => None
        case Some(hc) => Some(LinkParts(link[..i], hc.0, hc.1))
  }

  /** Reads `<host>?next=<cursor>`. */
  function ParseHostAndCursor(s: string): (hc: Option<(string, string)>)
  {
    match IndexOf(s, '?')
    case None => None
    case Some(j) =>
      var query := s[j + 1..];
      if |query| < 5 || query[..5] != "next=" then None
      else Some((s[..j], query[5..]))
  }

  lemma HostAndCursorRoundTrip(host: string, cursor: string)
    requires '?' !in host
    ensures ParseHostAndCursor(host + "?next=" + cursor) == Some((host, cursor))
  {
    var s := host + "?next=" + cursor;
    assert s == host + ['?'] + ("next=" + cursor);
    IndexOfFirst(host, '?', "next=" + cursor);
    assert s[..|host|] == host;
    assert s[|host| + 1..] == "next=" + cursor;
  }

  /**
   * The link is read back as the scheme, host and cursor it was built from, whenever
   * the scheme holds no ':' and the host no '?' (which no well-formed URL has).
   * Hence distinct cursors give distinct links.
   */
  lemma {:induction false} NextLinkRoundTrip(url: Url, cursor: string)
    requires ':' !in url.scheme && '?' !in url.host
    ensures ParseNextLink(NextLink(url, cursor)) == Some(LinkParts(url.scheme, url.host, cursor))
  {
    var link := NextLink(url, cursor);
    var afterSlashes := url.host + "?next=" + cursor;
    var tail := "//" + afterSlashes;
    assert link == url.scheme + [':'] + tail;
    IndexOfFirst(url.scheme, ':', tail);
    var i := |url.scheme|;
    assert link[..i] == url.scheme;
    assert link[i + 1..] == tail;
    assert tail[..2] == "//" && tail[2..] == afterSlashes;
    HostAndCursorRoundTrip(url.host, cursor);
  }
}
