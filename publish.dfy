/** Publish intake: PublishHandler.post checks the request, and
    receive_publish validates and normalizes the published URLs, expands
    each known topic to all its aliases, and hands the resulting topics to
    the fetch queue. Only topics with a KnownFeed are kept; a failure of
    the insert is answered with 503 so that the publisher retries. */
module Publish {
  import opened Common
  import Config
  import opened Url
  import Identity
  import Fetching

  /** A published URL urlparse does not raise on and is_valid_url accepts. */
  predicate UrlPasses(url: string, devEnv: bool)
  {
    !UrlParseRaises(url) && IsValidUrl(url, devEnv)
  }

  /** How the validation loop of receive_publish ends: every URL passes, or
      it stops at the first that does not, with a 400 when is_valid_url
      returns False and with the ValueError of urlparse otherwise. */
  datatype UrlsCheck = AllPassed | Rejected | Raised

  /** The outcome of checking `urls` one after the other. */
  function FirstFailure(urls: seq<string>, devEnv: bool): (r: UrlsCheck)
    ensures r == AllPassed <==> forall i :: 0 <= i < |urls| ==> UrlPasses(urls[i], devEnv)
    ensures r != AllPassed ==>
              exists i :: 0 <= i < |urls| && (forall j :: 0 <= j < i ==> UrlPasses(urls[j], devEnv))
                          && !UrlPasses(urls[i], devEnv)
                          && r == (if UrlParseRaises(urls[i]) then Raised else Rejected)
    decreases |urls|
  {
    if urls == [] then AllPassed
    else if UrlParseRaises(urls[0]) then Raised
    else if !IsValidUrl(urls[0], devEnv) then Rejected
    else
      var r := FirstFailure(urls[1..], devEnv);
      if r == AllPassed then
        AllPassOfTail(urls, devEnv);
        r
      else
        var k :| 0 <= k < |urls[1..]| && (forall j :: 0 <= j < k ==> UrlPasses(urls[1..][j], devEnv))
                 && !UrlPasses(urls[1..][k], devEnv)
                 && r == (if UrlParseRaises(urls[1..][k]) then Raised else Rejected);
        FirstFailureShifts(urls, devEnv, r, k);
        r
  }

  /** Every URL of the tail passes, and so does the first: all of them pass. */
  lemma AllPassOfTail(urls: seq<string>, devEnv: bool)
    requires urls != [] && UrlPasses(urls[0], devEnv)
    requires forall i :: 0 <= i < |urls[1..]| ==> UrlPasses(urls[1..][i], devEnv)
    ensures forall i :: 0 <= i < |urls| ==> UrlPasses(urls[i], devEnv)
  {
    forall i | 0 <= i < |urls|
      ensures UrlPasses(urls[i], devEnv)
    {
      if i > 0 { assert urls[i] == urls[1..][i - 1]; }
    }
  }

  /** The first URL of the tail that fails, shifted by one, is the first URL
      that fails when the first passes. */
  lemma FirstFailureShifts(urls: seq<string>, devEnv: bool, r: UrlsCheck, k: int)
    requires urls != [] && UrlPasses(urls[0], devEnv)
    requires 0 <= k < |urls[1..]| && (forall j :: 0 <= j < k ==> UrlPasses(urls[1..][j], devEnv))
             && !UrlPasses(urls[1..][k], devEnv)
             && r == (if UrlParseRaises(urls[1..][k]) then Raised else Rejected)
    ensures 0 <= k + 1 < |urls| && (forall j :: 0 <= j < k + 1 ==> UrlPasses(urls[j], devEnv))
            && !UrlPasses(urls[k + 1], devEnv)
            && r == (if UrlParseRaises(urls[k + 1]) then Raised else Rejected)
  {
    assert urls[k + 1] == urls[1..][k];
    forall j | 0 <= j < k + 1
      ensures UrlPasses(urls[j], devEnv)
    {
      if j > 0 { assert urls[j] == urls[1..][j - 1]; }
    }
  }

  /** The published URLs after normalize_iri, as a set. */
  function NormalizedTopics(urls: seq<string>): (r: set<string>)
    ensures forall i :: 0 <= i < |urls| ==> NormalizeIri(urls[i]) in r
    ensures forall t :: t in r ==> exists i :: 0 <= i < |urls| && t == NormalizeIri(urls[i])
  {
    set i | 0 <= i < |urls| :: NormalizeIri(urls[i])
  }

  /** The union of the alias sets of a derived topic map. */
  function Expanded(topicMap: map<string, set<string>>): (r: set<string>)
    ensures forall t, u :: t in topicMap && u in topicMap[t] ==> u in r
    ensures forall u :: u in r ==> exists t :: t in topicMap && u in topicMap[t]
  {
    set t, u | t in topicMap && u in topicMap[t] :: u
  }

  /** The topics a publish of `urls` fetches. */
  function FetchedTopics(feeds: map<string, Identity.KnownFeed>, ids: map<string, Identity.KnownFeedIdentity>,
                         urls: seq<string>): set<string>
  {
    Expanded(Identity.DerivedTopics(feeds, ids, NormalizedTopics(urls)))
  }

  /** A published topic someone subscribed to is always fetched, whatever
      its identity says. */
  lemma KnownPublishedTopicIsFetched(feeds: map<string, Identity.KnownFeed>,
                                     ids: map<string, Identity.KnownFeedIdentity>, urls: seq<string>, i: nat)
    requires i < |urls| && NormalizeIri(urls[i]) in feeds
    ensures NormalizeIri(urls[i]) in FetchedTopics(feeds, ids, urls)
  {
    var t := NormalizeIri(urls[i]);
    var derived := Identity.DerivedTopics(feeds, ids, NormalizedTopics(urls));
    assert t in derived && t in derived[t];
  }

  /** The topics receive_publish fetches as written, with
      derive_additional_topics leaving out unidentified known topics. */
  function FetchedTopicsAsWritten(feeds: map<string, Identity.KnownFeed>,
                                  ids: map<string, Identity.KnownFeedIdentity>, urls: seq<string>): set<string>
  {
    Expanded(Identity.DerivedTopicsAsWritten(feeds, ids, NormalizedTopics(urls)))
  }

  /** As written, a published known topic is fetched unless its feed id has
      no identity record, and the publish fetches nothing the corrected rule
      does not: the code only loses topics. */
  lemma KnownPublishedTopicAsWritten(feeds: map<string, Identity.KnownFeed>,
                                     ids: map<string, Identity.KnownFeedIdentity>, urls: seq<string>, i: nat)
    requires i < |urls| && NormalizeIri(urls[i]) in feeds
    ensures !Identity.Unidentified(feeds, ids, NormalizeIri(urls[i])) ==>
              NormalizeIri(urls[i]) in FetchedTopicsAsWritten(feeds, ids, urls)
    ensures FetchedTopicsAsWritten(feeds, ids, urls) <= FetchedTopics(feeds, ids, urls)
  {
    var t := NormalizeIri(urls[i]);
    var written := Identity.DerivedTopicsAsWritten(feeds, ids, NormalizedTopics(urls));
    var derived := Identity.DerivedTopics(feeds, ids, NormalizedTopics(urls));
    if !Identity.Unidentified(feeds, ids, t) {
      assert t in written && t in written[t];
    }
    forall u | u in FetchedTopicsAsWritten(feeds, ids, urls)
      ensures u in FetchedTopics(feeds, ids, urls)
    {
      var t' :| t' in written && u in written[t'];
      assert t' in derived && derived[t'] == written[t'];
    }
  }

  /** Every fetched topic was published itself or is an alias, listed in an
      identity record, of a published known topic with a feed id; nothing
      else is fetched. In particular a publish of topics nobody subscribed
      to fetches nothing. */
  lemma FetchedTopicsComeFromThePublish(feeds: map<string, Identity.KnownFeed>,
                                        ids: map<string, Identity.KnownFeedIdentity>, urls: seq<string>, u: string)
    requires u in FetchedTopics(feeds, ids, urls)
    ensures exists t :: t in NormalizedTopics(urls) && t in feeds && u in Identity.Aliases(feeds, ids, t)
    ensures u !in NormalizedTopics(urls) ==>
              exists t :: t in NormalizedTopics(urls) && t in feeds && Identity.HasFeedId(feeds[t])
                          && feeds[t].feedId.value in ids && u in SetOf(ids[feeds[t].feedId.value].topics)
  {
    var derived := Identity.DerivedTopics(feeds, ids, NormalizedTopics(urls));
    var t :| t in derived && u in derived[t];
    assert t in NormalizedTopics(urls) && t in feeds && u in Identity.Aliases(feeds, ids, t);
  }

  /** The loop of receive_publish that merges the alias sets of the derived
      topic map. */
  method UnionOfAliases(topicMap: map<string, set<string>>) returns (urls: set<string>)
    ensures urls == Expanded(topicMap)
  {
    urls := {};
    var pending := topicMap.Keys;
    while pending != {}
      invariant pending <= topicMap.Keys
      invariant forall u :: u in urls <==> exists t :: t in topicMap && t !in pending && u in topicMap[t]
      decreases |pending|
    {
      var t :| t in pending;
      urls := urls + topicMap[t];
      pending := pending - {t};
    }
  }

  /** The validation loop of receive_publish, URL by URL. */
  method CheckUrls(urls: seq<string>, devEnv: bool) returns (check: UrlsCheck)
    ensures check == FirstFailure(urls, devEnv)
  {
    var i := 0;
    while i < |urls|
      invariant 0 <= i <= |urls|
      invariant FirstFailure(urls, devEnv) == FirstFailure(urls[i..], devEnv)
    {
      assert urls[i..][1..] == urls[i + 1..];
      if UrlParseRaises(urls[i]) {
        return Raised;
      }
      if !IsValidUrl(urls[i], devEnv) {
        return Rejected;
      }
      i := i + 1;
    }
    return AllPassed;
  }

  /** receive_publish with the default hooks (URLs are not rewritten and no
      sources are derived): 400 when a URL is not valid, 500 when urlparse
      raises on one (the exception escapes to the framework), otherwise the
      known topics and their aliases are handed to the in-memory fetch
      queue; 503 when that insert fails, `successCode` otherwise. */
  method ReceivePublish(identities: Identity.FeedIdentityStore, fetchStore: Fetching.FetchStore,
                        urls: seq<string>, successCode: int, devEnv: bool, insertFails: bool, now: int)
    returns (status: int)
    requires fetchStore.Valid()
    modifies fetchStore
    ensures fetchStore.Valid() && fetchStore.work == old(fetchStore.work)
    ensures fetchStore.retries == old(fetchStore.retries)
    ensures FirstFailure(urls, devEnv) == Rejected ==> status == 400 && fetchStore.batches == old(fetchStore.batches)
    ensures FirstFailure(urls, devEnv) == Raised ==> status == 500 && fetchStore.batches == old(fetchStore.batches)
    ensures FirstFailure(urls, devEnv) == AllPassed ==>
      var topics := FetchedTopics(identities.knownFeeds, identities.identities, urls);
      && (topics == {} ==> status == successCode && fetchStore.batches == old(fetchStore.batches))
      && (topics != {} && insertFails ==> status == 503 && fetchStore.batches == old(fetchStore.batches))
      && (topics != {} && !insertFails ==>
            status == successCode && |fetchStore.batches| == |old(fetchStore.batches)| + 1
            && fetchStore.batches[..|old(fetchStore.batches)|] == old(fetchStore.batches)
            && var batch := fetchStore.batches[|old(fetchStore.batches)|];
               SetOf(Fetching.Topics(batch)) == topics && NoDup(Fetching.Topics(batch))
               && forall i :: 0 <= i < |batch| ==> Fetching.IsNewWork(batch[i], [], now))
  {
    var check := CheckUrls(urls, devEnv);
    if check == Raised {
      return 500;
    }
    if check == Rejected {
      return 400;
    }
    var normalized := SetToSeq(NormalizedTopics(urls));
    var topicMap := identities.DeriveAdditionalTopics(normalized);
    var topics := UnionOfAliases(topicMap);
    var topicList := SetToSeq(topics);
    if topicList != [] && insertFails {
      return 503;
    }
    var _ := fetchStore.Insert(topicList, [], true, now);
    status := successCode;
  }

  /** The parameters of a publish that PublishHandler.post accepts: the mode
      is "publish" in any case, and at least one hub.url is given. */
  function PublishRequest(params: seq<(string, string)>): (r: Option<seq<string>>)
    ensures r.Some? <==> UnicodeLower(Get(params, "hub.mode", "")) == "publish" && GetAll(params, "hub.url") != []
    ensures r.Some? ==> SetOf(r.value) == SetOf(GetAll(params, "hub.url")) && r.value != []
  {
    if UnicodeLower(Get(params, "hub.mode", "")) != "publish" then None
    else
      var urls := GetAll(params, "hub.url");
      if urls == [] then None else Some(urls)
  }

  /** PublishHandler.post: 400 for a wrong mode or no hub.url, otherwise
      receive_publish answering 204 on success (500 when urlparse raises). */
  method PublishPost(identities: Identity.FeedIdentityStore, fetchStore: Fetching.FetchStore,
                     params: seq<(string, string)>, devEnv: bool, insertFails: bool, now: int)
    returns (status: int)
    requires fetchStore.Valid()
    modifies fetchStore
    ensures fetchStore.Valid() && fetchStore.work == old(fetchStore.work)
    ensures fetchStore.retries == old(fetchStore.retries)
    ensures status == 400 || status == 500 || status == 503 || status == 204
    ensures PublishRequest(params).None? ==> status == 400 && fetchStore.batches == old(fetchStore.batches)
    ensures PublishRequest(params).Some? && FirstFailure(PublishRequest(params).value, devEnv) == Rejected ==>
              status == 400 && fetchStore.batches == old(fetchStore.batches)
    ensures PublishRequest(params).Some? && FirstFailure(PublishRequest(params).value, devEnv) == Raised ==>
              status == 500 && fetchStore.batches == old(fetchStore.batches)
    ensures status == 204 ==>
              var topics := FetchedTopics(identities.knownFeeds, identities.identities, PublishRequest(params).value);
              PublishRequest(params).Some? && (topics != {} ==> !insertFails)
    ensures status == 503 ==> insertFails && fetchStore.batches == old(fetchStore.batches)
    ensures PublishRequest(params).Some? && FirstFailure(PublishRequest(params).value, devEnv) == AllPassed ==>
      var topics := FetchedTopics(identities.knownFeeds, identities.identities, PublishRequest(params).value);
      && status == (if topics != {} && insertFails then 503 else 204)
      && (topics == {} || insertFails ==> fetchStore.batches == old(fetchStore.batches))
      && (topics != {} && !insertFails ==>
            |fetchStore.batches| == |old(fetchStore.batches)| + 1
            && fetchStore.batches[..|old(fetchStore.batches)|] == old(fetchStore.batches)
            && var batch := fetchStore.batches[|old(fetchStore.batches)|];
               SetOf(Fetching.Topics(batch)) == topics && NoDup(Fetching.Topics(batch))
               && forall i :: 0 <= i < |batch| ==> Fetching.IsNewWork(batch[i], [], now))
  {
    var request := PublishRequest(params);
    if request.None? {
      return 400;
    }
    status := ReceivePublish(identities, fetchStore, request.value, 204, devEnv, insertFails, now);
  }
}
