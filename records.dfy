/** FeedRecord: what the hub keeps of a feed between pulls besides its
    entries (the header and footer of the document, the format that last
    parsed, and the content-related response headers), and the request
    headers of the next pull, which make it a conditional GET. */
module Records {
  import opened Common
  import Config

  /** HTTP headers by name. */
  type Headers = map<string, string>

  /** headers.get(name): the value, or None when the header is absent. */
  function Lookup(h: Headers, name: string): (r: Option<string>)
    ensures r.Some? <==> name in h
    ensures r.Some? ==> r.value == h[name]
  {
    if name in h then Some(h[name]) else None
  }

  /** The User-Agent of a pull, naming the feed's subscriber count. */
  function UserAgent(subscriberCount: int): string
  {
    "Public Hub (+http://pubsubhubbub.appspot.com; " + IntToString(subscriberCount) + " subscribers)"
  }

  /** A validator stored from a response counts when it is not empty. */
  predicate Present(v: Option<string>)
  {
    v.Some? && v.value != ""
  }

  /** The names of the request headers, as keys of type K. */
  datatype HeaderNames<K(==)> = HeaderNames(cacheControl: K, connection: K, accept: K,
                                        ifModifiedSince: K, ifNoneMatch: K, userAgent: K)
  {
    predicate Distinct()
    {
      && cacheControl != connection && cacheControl != accept && cacheControl != ifModifiedSince
      && cacheControl != ifNoneMatch && cacheControl != userAgent && connection != accept
      && connection != ifModifiedSince && connection != ifNoneMatch && connection != userAgent
      && accept != ifModifiedSince && accept != ifNoneMatch && accept != userAgent
      && ifModifiedSince != ifNoneMatch && ifModifiedSince != userAgent && ifNoneMatch != userAgent
    }
  }

  const Names: HeaderNames<string> :=
    HeaderNames("Cache-Control", "Connection", "Accept", "If-Modified-Since", "If-None-Match", "User-Agent")

  /** `m` with the header `k` set to `v` when `c` holds. */
  function AddIf<K>(m: map<K, string>, c: bool, k: K, v: string): (r: map<K, string>)
    ensures r.Keys == m.Keys + (if c then {k} else {})
    ensures forall j :: j in m && j != k ==> r[j] == m[j]
    ensures c ==> r[k] == v
  {
    if c then m[k := v] else m
  }

  /** The request headers of a pull, under the names `n`. */
  function Assemble<K>(n: HeaderNames<K>, lastModified: Option<string>, etag: Option<string>, subscriberCount: int)
    : map<K, string>
  {
    var base := map[n.cacheControl := "no-cache no-store max-age=1", n.connection := "cache-control",
                    n.accept := "*/*"];
    var withDate := AddIf(base, Present(lastModified), n.ifModifiedSince,
                          if lastModified.Some? then lastModified.value else "");
    var withTag := AddIf(withDate, Present(etag), n.ifNoneMatch, if etag.Some? then etag.value else "");
    AddIf(withTag, subscriberCount != 0, n.userAgent, UserAgent(subscriberCount))
  }

  /** The headers are the three fixed ones, each conditional header when
      its validator is present, and the User-Agent when the subscriber
      count is not zero. */
  lemma AssembleNames<K>(n: HeaderNames<K>, lastModified: Option<string>, etag: Option<string>, subscriberCount: int)
    ensures Assemble(n, lastModified, etag, subscriberCount).Keys
              == {n.cacheControl, n.connection, n.accept}
                 + (if Present(lastModified) then {n.ifModifiedSince} else {})
                 + (if Present(etag) then {n.ifNoneMatch} else {})
                 + (if subscriberCount != 0 then {n.userAgent} else {})
  {
  }

  /** Under distinct names, a conditional header is there exactly when its
      validator is present, and every header has the value
      get_request_headers gives it. */
  lemma AssembleValues<K>(n: HeaderNames<K>, lastModified: Option<string>, etag: Option<string>, subscriberCount: int)
    requires n.Distinct()
    ensures var r := Assemble(n, lastModified, etag, subscriberCount);
      && r[n.cacheControl] == "no-cache no-store max-age=1" && r[n.connection] == "cache-control"
      && r[n.accept] == "*/*"
      && (n.ifModifiedSince in r <==> Present(lastModified))
      && (n.ifNoneMatch in r <==> Present(etag))
      && (Present(lastModified) ==> r[n.ifModifiedSince] == lastModified.value)
      && (Present(etag) ==> r[n.ifNoneMatch] == etag.value)
      && (subscriberCount != 0 ==> n.userAgent in r && r[n.userAgent] == UserAgent(subscriberCount))
  {
  }

  /** get_request_headers: caching is switched off, and a stored
      Last-Modified or ETag is sent back as If-Modified-Since or
      If-None-Match, so that an unchanged feed can answer 304; a non-zero
      subscriber count is announced in the User-Agent. */
  function RequestHeadersFor(lastModified: Option<string>, etag: Option<string>, subscriberCount: int)
    : (r: Headers)
    ensures r.Keys == {"Cache-Control", "Connection", "Accept"}
                      + (if Present(lastModified) then {"If-Modified-Since"} else {})
                      + (if Present(etag) then {"If-None-Match"} else {})
                      + (if subscriberCount != 0 then {"User-Agent"} else {})
    ensures r["Cache-Control"] == "no-cache no-store max-age=1" && r["Connection"] == "cache-control"
            && r["Accept"] == "*/*"
    ensures "If-Modified-Since" in r <==> Present(lastModified)
    ensures "If-None-Match" in r <==> Present(etag)
    ensures Present(lastModified) ==> r["If-Modified-Since"] == lastModified.value
    ensures Present(etag) ==> r["If-None-Match"] == etag.value
    ensures subscriberCount != 0 ==> r["User-Agent"] == UserAgent(subscriberCount)
  {
    NamesDistinct();
    AssembleNames(Names, lastModified, etag, subscriberCount);
    AssembleValues(Names, lastModified, etag, subscriberCount);
    Assemble(Names, lastModified, etag, subscriberCount)
  }

  /** The polling record of one feed. Empty options stand for properties
      never written. */
  class FeedRecord {
    const topic: string
    var headerFooter: Option<string>
    var format: Option<Config.Format>
    var contentType: Option<string>
    var lastModified: Option<string>
    var etag: Option<string>

    /** FeedRecord.get_or_create for a feed never seen before. */
    constructor(topic: string)
      ensures this.topic == topic && headerFooter.None? && format.None?
      ensures contentType.None? && lastModified.None? && etag.None?
    {
      this.topic := topic;
      headerFooter := None;
      format := None;
      contentType := None;
      lastModified := None;
      etag := None;
    }

    /** FeedRecord.update: takes the content type (lower-cased, empty when
      absent) and both validators from the response; records the format
      when one is given, and the header and footer when given, except for
      a feed whose format is arbitrary. */
    method Update(headers: Headers, newHeaderFooter: Option<string>, newFormat: Option<Config.Format>)
      modifies this
      ensures contentType == Some(Lower(if "Content-Type" in headers then headers["Content-Type"] else ""))
      ensures lastModified == Lookup(headers, "Last-Modified") && etag == Lookup(headers, "ETag")
      ensures format == if newFormat.Some? then newFormat else old(format)
      ensures headerFooter == if newHeaderFooter.Some? && format != Some(Config.Arbitrary)
                              then newHeaderFooter else old(headerFooter)
    {
      contentType := Some(Lower(if "Content-Type" in headers then headers["Content-Type"] else ""));
      lastModified := Lookup(headers, "Last-Modified");
      etag := Lookup(headers, "ETag");
      if newFormat.Some? {
        format := newFormat;
      }
      if newHeaderFooter.Some? && format != Some(Config.Arbitrary) {
        headerFooter := newHeaderFooter;
      }
    }

    /** FeedRecord.get_request_headers. */
    function RequestHeaders(subscriberCount: int): Headers
      reads this
    {
      RequestHeadersFor(lastModified, etag, subscriberCount)
    }
  }

  /** The validators a feed answered with are the ones the next pull sends:
      after update, a non-empty Last-Modified comes back as
      If-Modified-Since and a non-empty ETag as If-None-Match, and neither
      conditional header is sent when the response had none. */
  lemma ConditionalGetEchoesValidators(response: Headers, subscriberCount: int)
    ensures var next := RequestHeadersFor(Lookup(response, "Last-Modified"), Lookup(response, "ETag"),
                                          subscriberCount);
      && ("If-Modified-Since" in next <==> "Last-Modified" in response && response["Last-Modified"] != "")
      && ("If-Modified-Since" in next ==> next["If-Modified-Since"] == response["Last-Modified"])
      && ("If-None-Match" in next <==> "ETag" in response && response["ETag"] != "")
      && ("If-None-Match" in next ==> next["If-None-Match"] == response["ETag"])
  {
    var lm, et := Lookup(response, "Last-Modified"), Lookup(response, "ETag");
    assert Present(lm) <==> "Last-Modified" in response && response["Last-Modified"] != "";
    assert Present(et) <==> "ETag" in response && response["ETag"] != "";
  }

  /** The request header names are pairwise different. */
  lemma NamesDistinct()
    ensures Names.Distinct()
  {
    assert "If-Modified-Since"[3] == 'M' && "If-None-Match"[3] == 'N';
    assert "Cache-Control"[1] == 'a' && "Connection"[1] == 'o';
    assert "Cache-Control"[0] == 'C' && "Connection"[0] == 'C' && "Accept"[0] == 'A' && "User-Agent"[0] == 'U';
  }
}
