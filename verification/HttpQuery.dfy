/** The parameters of a message whose URL was put together from a path, a query and perhaps a hash. */
module HttpQuery {
  import opened FormParser
  import opened FormEncoding
  import opened HttpMessage

  lemma PartsOfUrl(path: string, query: string, tail: string)
    requires '?' !in path && '#' !in path && '#' !in query && (tail != "" ==> tail[0] == '#')
    ensures var url, p, q := path + "?" + query + tail, |path|, |path| + 1 + |query|;
            PartsOk(url, [Range(0, p), Range(p, q), Range(q, |url|)]) && Part(url, Range(p, q)) == "?" + query
  {
    var url, p, q := path + "?" + query + tail, |path|, |path| + 1 + |query|;
    assert Part(url, Range(0, p)) == path && Part(url, Range(p, q)) == "?" + query && Part(url, Range(q, |url|)) == tail;
  }

  /** Whatever pairs were sent in the query of an acceptable URL are the parameters of the message. */
  lemma SentIsFound(m: Message, path: string, items: seq<Item>, tail: string, ps: seq<Pair>)
    requires QueryOk(items) && m.url == path + "?" + Query(items) + tail && Accepted(m.url)
    requires '?' !in path && '#' !in path && '#' !in Query(items) && (tail != "" ==> tail[0] == '#')
    requires m.ParamsAre(ps)
    ensures ps == Given(items)
  {
    hide Query, Pairs, Given;
    var query := Query(items);
    PartsOfUrl(path, query, tail);
    PairsBack(items);
    var p, q := |path|, |path| + 1 + |query|;
    var mine := [Range(0, p), Range(p, q), Range(q, |m.url|)];
    var parts :| PartsOk(m.url, parts) && ps == if Part(m.url, parts[1]) == "" then [] else Pairs(Part(m.url, parts[1])[1..]);
    PartsUnique(m.url, parts, mine);
    assert ("?" + query)[1..] == query;
  }
}
