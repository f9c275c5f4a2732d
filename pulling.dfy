/** PullFeedHandler._handle_fetches for one work item: a feed the fetch
    scorer blocks or nobody subscribes to is dropped; otherwise it is
    fetched, following redirects up to MAX_REDIRECTS, and the reply decides
    whether the document is parsed, the item is done or the fetch failed.
    The network is an oracle from URL and request headers to a reply. */
module Pulling {
  import opened Common
  import Config
  import Fetching
  import Subscriptions
  import Records
  import FeedDiff
  import Parse
  import Events

  /** The urlfetch errors the callback tells apart. */
  datatype FetchError = ResponseTooLarge | InvalidUrl | ApiError | UnexpectedError

  /** What one fetch gives the callback. */
  datatype Response = Reply(status: int, headers: Records.Headers, content: string) | Raised(error: FetchError)

  /** The callback's decision on one response. */
  datatype Action = ParseContent | Redirect(url: string) | Done(success: bool) | FetchFailed

  predicate IsRedirectStatus(status: int)
  {
    status == 301 || status == 302 || status == 303 || status == 307
  }

  /** The callback's dispatch for the `attempts`-th fetch of a feed: a 200
      is parsed; a redirect with a Location is followed while fewer than
      MAX_REDIRECTS fetches were made, and counts as a failed fetch after
      that; a 304 (not modified) is a successful pull with nothing new; a
      response too large or an invalid redirect URL ends the pull; every
      other status or error is a failed fetch. */
  function Dispatch(response: Response, attempts: nat): (a: Action)
    ensures a == ParseContent <==> response.Reply? && response.status == 200
    ensures a.Redirect? <==> response.Reply? && IsRedirectStatus(response.status)
                             && "Location" in response.headers && attempts < Config.MAX_REDIRECTS
    ensures a.Redirect? ==> a.url == response.headers["Location"]
    ensures a == Done(true) <==> response.Reply? && response.status == 304
    ensures a == Done(false) <==> response.Raised? && (response.error == ResponseTooLarge || response.error == InvalidUrl)
    ensures a == FetchFailed <==>
              ((response.Raised? && (response.error == ApiError || response.error == UnexpectedError))
               || (response.Reply? && response.status != 200 && response.status != 304
                   && !(IsRedirectStatus(response.status) && "Location" in response.headers
                        && attempts < Config.MAX_REDIRECTS)))
  {
    match response
    case Raised(e) =>
      if e.ResponseTooLarge? || e.InvalidUrl? then Done(false) else FetchFailed
    case Reply(status, headers, _) =>
      if status == 200 then ParseContent
      else if IsRedirectStatus(status) && "Location" in headers then
        if attempts >= Config.MAX_REDIRECTS then FetchFailed else Redirect(headers["Location"])
      else if status == 304 then Done(true)
      else FetchFailed
  }

  /** The pull of a feed from `url` as the `attempts`-th fetch: redirects
      are followed with the same request headers until the dispatch
      decides something else. */
  function Follow(respond: (string, Records.Headers) -> Response, headers: Records.Headers, url: string,
                  attempts: nat): (r: Action)
    ensures !r.Redirect?
    decreases Config.MAX_REDIRECTS - attempts
  {
    var a := Dispatch(respond(url, headers), attempts);
    if a.Redirect? then Follow(respond, headers, a.url, attempts + 1) else a
  }

  /** The URLs fetched by that pull, in order. */
  function Trail(respond: (string, Records.Headers) -> Response, headers: Records.Headers, url: string,
                 attempts: nat): seq<string>
    decreases Config.MAX_REDIRECTS - attempts
  {
    var a := Dispatch(respond(url, headers), attempts);
    [url] + if a.Redirect? then Trail(respond, headers, a.url, attempts + 1) else []
  }

  /** The response that ends a pull: the last URL of the trail is the one
      whose response the pull acts on. */
  function Final(respond: (string, Records.Headers) -> Response, headers: Records.Headers, url: string,
                 attempts: nat): (string, nat)
    decreases Config.MAX_REDIRECTS - attempts
  {
    var a := Dispatch(respond(url, headers), attempts);
    if a.Redirect? then Final(respond, headers, a.url, attempts + 1) else (url, attempts)
  }

  /** A pull makes at least one fetch and, counting from the first, never
      more than MAX_REDIRECTS; it ends on the dispatch of its last fetch. */
  lemma {:induction false} PullIsBounded(respond: (string, Records.Headers) -> Response, headers: Records.Headers,
                                         url: string, attempts: nat)
    requires 1 <= attempts <= Config.MAX_REDIRECTS
    ensures var t := Trail(respond, headers, url, attempts);
      var f := Final(respond, headers, url, attempts);
      && 1 <= |t| <= Config.MAX_REDIRECTS - attempts + 1
      && t[|t| - 1] == f.0 && f.1 == attempts + |t| - 1
      && Follow(respond, headers, url, attempts) == Dispatch(respond(f.0, headers), f.1)
    decreases Config.MAX_REDIRECTS - attempts
  {
    var a := Dispatch(respond(url, headers), attempts);
    if a.Redirect? {
      PullIsBounded(respond, headers, a.url, attempts + 1);
    }
  }

  /** A publisher that redirects every fetch makes the pull fail after
      exactly MAX_REDIRECTS fetches. */
  lemma {:induction false} EndlessRedirectsFail(respond: (string, Records.Headers) -> Response, headers: Records.Headers,
                                                url: string, attempts: nat)
    requires 1 <= attempts <= Config.MAX_REDIRECTS
    requires forall u :: respond(u, headers).Reply? && IsRedirectStatus(respond(u, headers).status)
                         && "Location" in respond(u, headers).headers
    ensures Follow(respond, headers, url, attempts) == FetchFailed
    ensures |Trail(respond, headers, url, attempts)| == Config.MAX_REDIRECTS - attempts + 1
    decreases Config.MAX_REDIRECTS - attempts
  {
    var a := Dispatch(respond(url, headers), attempts);
    if attempts < Config.MAX_REDIRECTS {
      assert a.Redirect?;
      EndlessRedirectsFail(respond, headers, a.url, attempts + 1);
    }
  }

  /** Following one redirect leaves the pull's end where it was. */
  lemma FollowStep(respond: (string, Records.Headers) -> Response, headers: Records.Headers, url: string,
                   attempts: nat)
    requires Dispatch(respond(url, headers), attempts).Redirect?
    ensures var next := Dispatch(respond(url, headers), attempts).url;
      && Follow(respond, headers, url, attempts) == Follow(respond, headers, next, attempts + 1)
      && Final(respond, headers, url, attempts) == Final(respond, headers, next, attempts + 1)
  {
  }

  /** The fetch loop of the callback: fetches from the topic URL and
      follows redirects; returns the last URL fetched, the number of
      fetches and the dispatch of the last response. */
  method Pull(respond: (string, Records.Headers) -> Response, headers: Records.Headers, topic: string)
    returns (url: string, attempts: nat, action: Action)
    ensures (url, attempts) == Final(respond, headers, topic, 1)
    ensures action == Follow(respond, headers, topic, 1) && action == Dispatch(respond(url, headers), attempts)
    ensures 1 <= attempts <= Config.MAX_REDIRECTS
  {
    url := topic;
    attempts := 1;
    action := Dispatch(respond(url, headers), attempts);
    while action.Redirect?
      invariant 1 <= attempts <= Config.MAX_REDIRECTS
      invariant action == Dispatch(respond(url, headers), attempts)
      invariant Follow(respond, headers, url, attempts) == Follow(respond, headers, topic, 1)
      invariant Final(respond, headers, url, attempts) == Final(respond, headers, topic, 1)
      decreases Config.MAX_REDIRECTS - attempts
    {
      FollowStep(respond, headers, url, attempts);
      url := action.url;
      attempts := attempts + 1;
      action := Dispatch(respond(url, headers), attempts);
    }
  }

  /** How the work item's pull ended: not fetched (blocked or without
      subscribers), fetched with success or failure for the fetch scorer,
      or an exception escaped the parse. */
  datatype PullResult = NotFetched | Fetched(success: bool) | Aborted

  /** The stored work item after the pull of `w` ended: when `done`, the
      item is marked done (deleted unless rescheduled); otherwise it writes
      the fetch_failed outcome back and, below MAX_FEED_PULL_FAILURES,
      queues a retry, unless that transaction fails. */
  ghost predicate Settled(done: bool, txnFails: bool, w: Fetching.FeedToFetch, now: int,
                          oldWork: map<string, Fetching.FeedToFetch>, oldRetries: seq<Fetching.RetryTask>,
                          work: map<string, Fetching.FeedToFetch>, retries: seq<Fetching.RetryTask>)
  {
    var updated := Fetching.FetchFailedOutcome(w, Config.MAX_FEED_PULL_FAILURES, Config.FEED_PULL_RETRY_PERIOD, now);
    && (done ==> work == Fetching.AfterDone(oldWork, w) && retries == oldRetries)
    && (!done && txnFails ==> work == oldWork && retries == oldRetries)
    && (!done && !txnFails ==>
          && work == oldWork[w.topic := updated]
          && retries == oldRetries + (if w.fetchingFailures < Config.MAX_FEED_PULL_FAILURES
                                      then [Fetching.RetryTask(w.topic, updated.eta)] else []))
  }

  /** Ends the pull of `w` as done or as a failed fetch. */
  method Settle(w: Fetching.FeedToFetch, fetchStore: Fetching.FetchStore, done: bool, txnFails: bool, now: int)
    requires fetchStore.Valid()
    modifies fetchStore
    ensures fetchStore.Valid() && fetchStore.batches == old(fetchStore.batches)
    ensures Settled(done, txnFails, w, now, old(fetchStore.work), old(fetchStore.retries),
                    fetchStore.work, fetchStore.retries)
  {
    if done {
      var _ := fetchStore.Done(w);
    } else {
      fetchStore.FetchFailed(w, Config.MAX_FEED_PULL_FAILURES, Config.FEED_PULL_RETRY_PERIOD, now, txnFails);
    }
  }

  /** The pull result parse_feed's answer gives: an envelope error escapes
      the callback; otherwise the answer is the pull's success. */
  function FromVerdict(v: Option<bool>): PullResult
  {
    if v.Some? then Fetched(v.value) else Aborted
  }

  /** The callback's ParseContent branch: parse_feed with true_on_bad_feed,
      then the item is done or its fetch failed; an envelope error escapes
      and leaves the item as it was. */
  method ParseAndSettle(w: Fetching.FeedToFetch, fetchStore: Fetching.FetchStore, record: Records.FeedRecord,
                        response: Response, stored: FeedDiff.EntryStore, hash: string -> string,
                        filter: Config.Format -> FeedDiff.FilterResult, fits: seq<Parse.Entity> -> bool,
                        datastoreFails: bool, txnFails: bool, now: int, fromPollingQueue: bool)
    returns (result: PullResult)
    requires fetchStore.Valid() && record.topic == w.topic && response.Reply?
    modifies fetchStore, record
    ensures fetchStore.Valid() && fetchStore.batches == old(fetchStore.batches)
    ensures result == FromVerdict(Parse.Verdict(
              Parse.ParseFirst(Parse.FormatOrder(old(record.format), old(record.contentType)),
                               stored, hash, w.topic, response.content, filter),
              w.topic, if record.contentType.Some? then record.contentType.value else "", true, fits, datastoreFails))
    ensures result == Aborted ==> fetchStore.work == old(fetchStore.work) && fetchStore.retries == old(fetchStore.retries)
    ensures result.Fetched? ==> Settled(result.success, txnFails, w, now, old(fetchStore.work),
                                        old(fetchStore.retries), fetchStore.work, fetchStore.retries)
  {
    var parsed, _, _ := Parse.ParseFeed(record, response.headers, response.content, true, stored, hash, filter,
                                        fits, datastoreFails, now, fromPollingQueue);
    match parsed
    case Err(_) =>
      return Aborted;
    case Ok(success) =>
      Settle(w, fetchStore, success, txnFails, now);
      return Fetched(success);
  }

  /** The callback's part of HandleFetch: the pull with request headers
      `h`, then the item settled by its dispatch or by the parse. */
  method FetchAndSettle(work: Fetching.FeedToFetch, fetchStore: Fetching.FetchStore, record: Records.FeedRecord,
                        h: Records.Headers, respond: (string, Records.Headers) -> Response,
                        stored: FeedDiff.EntryStore, hash: string -> string,
                        filter: Config.Format -> FeedDiff.FilterResult, fits: seq<Parse.Entity> -> bool,
                        datastoreFails: bool, txnFails: bool, now: int, fromPollingQueue: bool)
    returns (result: PullResult)
    requires fetchStore.Valid() && record.topic == work.topic
    modifies fetchStore, record
    ensures fetchStore.Valid() && fetchStore.batches == old(fetchStore.batches)
    ensures var a := Follow(respond, h, work.topic, 1);
      && (a.Done? ==> result == Fetched(a.success)
                      && Settled(true, txnFails, work, now, old(fetchStore.work), old(fetchStore.retries),
                                 fetchStore.work, fetchStore.retries))
      && (a == FetchFailed ==> result == Fetched(false))
      && (a == ParseContent ==> result != NotFetched)
      && (!a.Done? && result.Fetched? ==>
            Settled(result.success, txnFails, work, now, old(fetchStore.work), old(fetchStore.retries),
                    fetchStore.work, fetchStore.retries))
    ensures result == Aborted ==> fetchStore.work == old(fetchStore.work) && fetchStore.retries == old(fetchStore.retries)
    ensures var f := Final(respond, h, work.topic, 1);
      respond(f.0, h).Reply? && respond(f.0, h).status == 200 ==>
        result == FromVerdict(Parse.Verdict(
                    Parse.ParseFirst(Parse.FormatOrder(old(record.format), old(record.contentType)),
                                     stored, hash, work.topic, respond(f.0, h).content, filter),
                    work.topic, if record.contentType.Some? then record.contentType.value else "", true, fits,
                    datastoreFails))
  {
    var url, attempts, action := Pull(respond, h, work.topic);
    match action
    case Done(success) =>
      Settle(work, fetchStore, true, txnFails, now);
      return Fetched(success);
    case FetchFailed =>
      Settle(work, fetchStore, false, txnFails, now);
      return Fetched(false);
    case ParseContent =>
      result := ParseAndSettle(work, fetchStore, record, respond(url, h), stored, hash, filter, fits,
                               datastoreFails, txnFails, now, fromPollingQueue);
  }

  /** _handle_fetches and its callback for one work item. The item is done
      (deleted unless rescheduled) when it is skipped, when the dispatch
      says done (a 304, a response too large or an invalid redirect URL),
      or when the parse succeeds; its fetch failed when the dispatch says
      so or the parse fails. */
  method HandleFetch(work: Fetching.FeedToFetch, fetchStore: Fetching.FetchStore,
                     subs: Subscriptions.SubscriptionStore, record: Records.FeedRecord,
                     allowed: bool, subscriberCount: int, respond: (string, Records.Headers) -> Response,
                     stored: FeedDiff.EntryStore, hash: string -> string,
                     filter: Config.Format -> FeedDiff.FilterResult, fits: seq<Parse.Entity> -> bool,
                     datastoreFails: bool, txnFails: bool, now: int, fromPollingQueue: bool)
    returns (result: PullResult)
    requires fetchStore.Valid() && record.topic == work.topic
    modifies fetchStore, record
    ensures fetchStore.Valid() && fetchStore.batches == old(fetchStore.batches)
    ensures !allowed || !subs.HasSubscribers(work.topic) ==>
              result == NotFetched && fetchStore.work == Fetching.AfterDone(old(fetchStore.work), work)
              && fetchStore.retries == old(fetchStore.retries)
    ensures allowed && subs.HasSubscribers(work.topic) ==>
      var a := Follow(respond, old(record.RequestHeaders(subscriberCount)), work.topic, 1);
      && (a.Done? ==> result == Fetched(a.success)
                      && Settled(true, txnFails, work, now, old(fetchStore.work), old(fetchStore.retries),
                                 fetchStore.work, fetchStore.retries))
      && (a == FetchFailed ==> result == Fetched(false))
      && (a == ParseContent ==> result != NotFetched)
      && (!a.Done? && result.Fetched? ==>
            Settled(result.success, txnFails, work, now, old(fetchStore.work), old(fetchStore.retries),
                    fetchStore.work, fetchStore.retries))
    ensures result == Aborted ==> fetchStore.work == old(fetchStore.work) && fetchStore.retries == old(fetchStore.retries)
    ensures allowed && subs.HasSubscribers(work.topic) ==>
      var h := old(record.RequestHeaders(subscriberCount));
      var f := Final(respond, h, work.topic, 1);
      respond(f.0, h).Reply? && respond(f.0, h).status == 200 ==>
        result == FromVerdict(Parse.Verdict(
                    Parse.ParseFirst(Parse.FormatOrder(old(record.format), old(record.contentType)),
                                     stored, hash, work.topic, respond(f.0, h).content, filter),
                    work.topic, if record.contentType.Some? then record.contentType.value else "", true, fits,
                    datastoreFails))
  {
    if !allowed || !subs.HasSubscribers(work.topic) {
      var _ := fetchStore.Done(work);
      return NotFetched;
    }
    result := FetchAndSettle(work, fetchStore, record, record.RequestHeaders(subscriberCount), respond, stored,
                             hash, filter, fits, datastoreFails, txnFails, now, fromPollingQueue);
  }
}
