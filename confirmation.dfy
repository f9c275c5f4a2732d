/** Subscribing and unsubscribing: the subscribe request's validation and
    status table, the verification request to the subscriber, the decision on
    its reply, and the background worker that confirms queued requests. The
    reply to the verification request, the random challenge and the time are
    inputs. */
module Confirmation {
  import opened Common
  import Config
  import opened Url
  import opened Subscriptions
  import Identity

  datatype Mode = Subscribe | Unsubscribe
  datatype VerifyType = Sync | Async

  function ModeName(m: Mode): string
  {
    match m
    case Subscribe => "subscribe"
    case Unsubscribe => "unsubscribe"
  }

  /** The reply to a GET of the verification URL: a status and body, or an
      urlfetch error. */
  datatype FetchResult = FetchError | Fetched(status: int, content: string)

  /** The verification types the hub knows, by their request names. */
  function VerifyTypeOf(s: string): Option<VerifyType>
  {
    if s == "sync" then Some(Sync) else if s == "async" then Some(Async) else None
  }

  /** The first of the requested verification types that is 'sync' or
      'async', in request order. */
  function FirstVerifyType(vs: seq<string>): (r: Option<VerifyType>)
    ensures r.None? <==> forall i :: 0 <= i < |vs| ==> VerifyTypeOf(vs[i]).None?
    ensures r.Some? ==> exists i :: 0 <= i < |vs| && VerifyTypeOf(vs[i]) == r
                                    && forall j :: 0 <= j < i ==> VerifyTypeOf(vs[j]).None?
  {
    if vs == [] then None
    else if VerifyTypeOf(vs[0]).Some? then VerifyTypeOf(vs[0])
    else
      var r := FirstVerifyType(vs[1..]);
      assert forall i :: 1 <= i < |vs| ==> vs[i] == vs[1..][i - 1];
      if r.Some? then
        var i :| 0 <= i < |vs[1..]| && VerifyTypeOf(vs[1..][i]) == r
                 && forall j :: 0 <= j < i ==> VerifyTypeOf(vs[1..][j]).None?;
        assert VerifyTypeOf(vs[i + 1]) == r;
        r
      else r
  }

  // ---------------------------------------------------------------------------
  // SubscribeHandler.post: validation

  /** What makes a subscribe request a bad request, or, for UrlRaised, makes
      urlparse raise ValueError on the callback or the topic, an exception
      that escapes the handler. */
  datatype SubscribeError =
    | UrlRaised
    | BadCallback
    | BadTopic
    | BadVerify(types: seq<string>)
    | BadMode(mode: string)
    | BadLease(lease: string)

  /** A validated subscribe request: normalized URLs, the chosen
      verification type and the lease in seconds. An empty secret stands for
      no secret. */
  datatype SubscribeRequest = SubscribeRequest(
    callback: string, topic: string, verifyType: VerifyType, verifyToken: string,
    secret: string, leaseSeconds: int, mode: Mode)

  /** The raw parameters of a subscribe request. */
  datatype RawSubscribe = RawSubscribe(
    callback: string, topic: string, verifyTypes: seq<string>, verifyToken: string,
    secret: string, lease: string, mode: string)

  function ReadSubscribe(params: seq<(string, string)>): (r: RawSubscribe)
    ensures r.lease != ""
  {
    var lease := Get(params, "hub.lease_seconds", "");
    RawSubscribe(
      Get(params, "hub.callback", ""), Get(params, "hub.topic", ""),
      UnicodeLowerAll(GetAll(params, "hub.verify")), Get(params, "hub.verify_token", ""),
      Get(params, "hub.secret", ""),
      if lease != "" then lease else IntToString(Config.DEFAULT_LEASE_SECONDS),
      UnicodeLower(Get(params, "hub.mode", "")))
  }

  predicate CallbackOk(raw: RawSubscribe, devEnv: bool)
  {
    raw.callback != "" && IsValidUrl(raw.callback, devEnv)
  }

  predicate TopicOk(raw: RawSubscribe, devEnv: bool)
  {
    raw.topic != "" && IsValidUrl(raw.topic, devEnv)
  }

  /** is_valid_url raises on the callback or, after a callback it returned
      on, on the topic; an empty URL is not checked. */
  predicate UrlRaises(raw: RawSubscribe)
  {
    (raw.callback != "" && UrlParseRaises(raw.callback)) || (raw.topic != "" && UrlParseRaises(raw.topic))
  }

  predicate ModeOk(raw: RawSubscribe)
  {
    raw.mode == "subscribe" || raw.mode == "unsubscribe"
  }

  /** The checks run in the order callback, topic, verify, mode, lease, each
      overwriting the error message of the ones before: the error reported
      is that of the last check that fails. The lease must be written
      exactly as Python prints the integer it denotes. A URL urlparse
      raises on ends the request before any of that. */
  function ValidateSubscribe(raw: RawSubscribe, devEnv: bool): (r: Result<SubscribeRequest, SubscribeError>)
    ensures r == Err(UrlRaised) <==> UrlRaises(raw)
    ensures r.Ok? <==> !UrlRaises(raw) && CallbackOk(raw, devEnv) && TopicOk(raw, devEnv)
                       && FirstVerifyType(raw.verifyTypes).Some? && ModeOk(raw) && CanonicalIntValue(raw.lease).Some?
    ensures r == Err(BadLease(raw.lease)) <==> !UrlRaises(raw) && CanonicalIntValue(raw.lease).None?
    ensures r == Err(BadMode(raw.mode)) <==> !UrlRaises(raw) && CanonicalIntValue(raw.lease).Some? && !ModeOk(raw)
    ensures r == Err(BadVerify(raw.verifyTypes)) <==>
              !UrlRaises(raw) && CanonicalIntValue(raw.lease).Some? && ModeOk(raw)
              && FirstVerifyType(raw.verifyTypes).None?
    ensures r == Err(BadTopic) <==>
              !UrlRaises(raw) && CanonicalIntValue(raw.lease).Some? && ModeOk(raw)
              && FirstVerifyType(raw.verifyTypes).Some? && !TopicOk(raw, devEnv)
    ensures r.Ok? ==> && r.value.callback == NormalizeIri(raw.callback)
                      && r.value.topic == NormalizeIri(raw.topic)
                      && Some(r.value.verifyType) == FirstVerifyType(raw.verifyTypes)
                      && IntToString(r.value.leaseSeconds) == raw.lease
                      && ModeName(r.value.mode) == raw.mode
  {
    if UrlRaises(raw) then Err(UrlRaised)
    else
    var err1 := if !CallbackOk(raw, devEnv) then Some(BadCallback) else None;
    var err2 := if !TopicOk(raw, devEnv) then Some(BadTopic) else err1;
    var verifyType := FirstVerifyType(raw.verifyTypes);
    var err3 := if verifyType.None? then Some(BadVerify(raw.verifyTypes)) else err2;
    var err4 := if !ModeOk(raw) then Some(BadMode(raw.mode)) else err3;
    var lease := CanonicalIntValue(raw.lease);
    var err5 := if lease.None? then Some(BadLease(raw.lease)) else err4;
    if err5.Some? then Err(err5.value)
    else
      CanonicalIntRoundTrip(lease.value, raw.lease);
      Ok(SubscribeRequest(NormalizeIri(raw.callback), NormalizeIri(raw.topic), verifyType.value,
                          raw.verifyToken, raw.secret, lease.value,
                          if raw.mode == "subscribe" then Subscribe else Unsubscribe))
  }

  // ---------------------------------------------------------------------------
  // confirm_subscription

  /** The lease granted: the requested one, capped at MAX_LEASE_SECONDS. */
  function RealLeaseSeconds(leaseSeconds: int): (r: int)
    ensures r <= Config.MAX_LEASE_SECONDS
    ensures r == leaseSeconds || (r == Config.MAX_LEASE_SECONDS && leaseSeconds > r)
  {
    if leaseSeconds < Config.MAX_LEASE_SECONDS then leaseSeconds else Config.MAX_LEASE_SECONDS
  }

  /** The hub.* parameters of the verification request. */
  function VerifyParams(mode: Mode, topic: string, challenge: string, realLease: int, verifyToken: string)
    : seq<(string, string)>
  {
    [("hub.mode", ModeName(mode)), ("hub.topic", topic), ("hub.challenge", challenge),
     ("hub.lease_seconds", IntToString(realLease))]
    + (if verifyToken != "" then [("hub.verify_token", verifyToken)] else [])
  }

  /** The query of the verification URL: the subscriber's query, if any,
      then '&' and the hub's parameters. */
  function JoinQuery(query: string, encoded: string): string
  {
    if query != "" then query + "&" + encoded else encoded
  }

  /** The callback URL with the verification parameters added to its query,
      taken apart by urlparse and put back together by urlunparse. */
  function VerificationUrl(callback: string, encoded: string): string
  {
    var parsed := UrlParse(callback);
    UrlUnparse(parsed.(query := JoinQuery(parsed.query, encoded)))
  }

  lemma ConcatAssoc(a: string, b: string, c: string)
    ensures a + (b + c) == (a + b) + c
  {
  }

  lemma PathAndJoinedQuery(path: string, query: string, encoded: string)
    requires encoded != ""
    ensures PathAndQuery(path, JoinQuery(query, encoded))
            == PathAndQuery(path, query) + (if query == "" then "?" else "&") + encoded
  {
  }

  /** The subscriber's own query parameters survive: the verification URL
      is the callback with '?' or, after an existing query, '&' and the
      hub's parameters appended. The path goes through urlparse's split of
      its parameters, so it is kept unless it ends in a ';' with nothing
      after it, which urlunparse drops. */
  lemma VerificationUrlKeepsQuery(scheme: string, netloc: string, path: string, query: string, encoded: string)
    requires scheme == "http" || scheme == "https"
    requires netloc != "" && NoneOf(netloc, {'/', '?', '#'})
    requires path == [] || path[0] == '/'
    requires '?' !in path && '#' !in path && '#' !in query
    requires encoded != ""
    ensures var callback := scheme + "://" + netloc + PathAndQuery(path, query);
      var sep := if query == "" then "?" else "&";
      var (p, ps) := SplitParams(path);
      && VerificationUrl(callback, encoded)
         == scheme + "://" + netloc + PathAndQuery(JoinParams(p, ps), query) + sep + encoded
      && (path == [] || path[|path| - 1] != ';' ==> VerificationUrl(callback, encoded) == callback + sep + encoded)
  {
    var callback := scheme + "://" + netloc + PathAndQuery(path, query);
    var q := JoinQuery(query, encoded);
    var sep := if query == "" then "?" else "&";
    var (p, ps) := SplitParams(path);
    var joined := JoinParams(p, ps);
    SplitHttpUrl(scheme, netloc, path, query);
    assert UrlParse(callback) == ParsedUrl(scheme, netloc, p, ps, query, "");
    ParamsRejoined(path);
    UnsplitHttpUrl(scheme, netloc, joined, q);
    PathAndJoinedQuery(joined, query, encoded);
    var prefix := scheme + "://" + netloc;
    var x := PathAndQuery(joined, query);
    ConcatAssoc(prefix, x, sep + encoded);
    ConcatAssoc(prefix + x, sep, encoded);
    ConcatAssoc(x, sep, encoded);
    calc {
      VerificationUrl(callback, encoded);
      UrlUnsplit(SplitUrl(scheme, netloc, joined, q, ""));
      prefix + PathAndQuery(joined, q);
      prefix + (x + sep + encoded);
      prefix + x + sep + encoded;
    }
  }

  /** How the hub reads the subscriber's reply. */
  datatype ConfirmOutcome = Confirmed | ArchivedOn404 | NotConfirmed

  /** Success exactly when a 2xx reply echoes the challenge; a 404 to a
      subscribe also counts as handled, the subscription being archived;
      anything else, and a fetch error, fails. */
  function OutcomeOf(mode: Mode, response: FetchResult, challenge: string): (r: ConfirmOutcome)
    ensures r == Confirmed <==> response.Fetched? && 200 <= response.status < 300 && response.content == challenge
    ensures r == ArchivedOn404 <==> response.Fetched? && mode == Subscribe && response.status == 404
  {
    match response
    case FetchError => NotConfirmed
    case Fetched(status, content) =>
      if 200 <= status < 300 && content == challenge then Confirmed
      else if mode == Subscribe && status == 404 then ArchivedOn404
      else NotConfirmed
  }

  /** The subscriptions after the reply has been acted on. */
  function AfterConfirm(store: map<SubKey, Subscription>, hash: string -> string, mode: Mode, topic: string,
                        callback: string, verifyToken: string, secret: string, leaseSeconds: int,
                        outcome: ConfirmOutcome, now: int): (r: map<SubKey, Subscription>)
    ensures var k := SubKey(callback, topic);
      && (outcome == Confirmed && mode == Subscribe ==>
            k in r && r[k].state == Verified && r[k].expirationTime == now + RealLeaseSeconds(leaseSeconds))
      && (outcome == Confirmed && mode == Unsubscribe ==> r == store - {k})
      && (outcome == ArchivedOn404 ==> r == AfterArchive(store, k))
      && (outcome == NotConfirmed ==> r == store)
  {
    match outcome
    case Confirmed =>
      if mode == Subscribe then
        AfterInsert(hash, store, callback, topic, verifyToken, secret, "sha1", RealLeaseSeconds(leaseSeconds), now)
      else store - {SubKey(callback, topic)}
    case ArchivedOn404 => AfterArchive(store, SubKey(callback, topic))
    case NotConfirmed => store
  }

  /** confirm_subscription: sends the verification request (its URL is
      returned; `response` is the reply to it) and acts on the reply.
      Returns whether the request was handled and whether the topic's feed
      is to be recorded. */
  method ConfirmSubscription(store: SubscriptionStore, mode: Mode, topic: string, callback: string,
                             verifyToken: string, secret: string, leaseSeconds: int, recordTopic: bool,
                             challenge: string, response: FetchResult, now: int)
    returns (ok: bool, url: string, recordFeed: bool)
    requires store.Valid()
    modifies store
    ensures store.Valid()
    ensures var outcome := OutcomeOf(mode, response, challenge);
      && (ok <==> outcome != NotConfirmed)
      && (recordFeed <==> outcome == Confirmed && mode == Subscribe && recordTopic)
      && store.subs == AfterConfirm(old(store.subs), store.hash, mode, topic, callback, verifyToken, secret,
                                    leaseSeconds, outcome, now)
    ensures store.tasks == old(store.tasks)
    ensures url == VerificationUrl(callback, UrlEncode(VerifyParams(mode, topic, challenge,
                                                                    RealLeaseSeconds(leaseSeconds), verifyToken)))
  {
    var realLease := RealLeaseSeconds(leaseSeconds);
    url := VerificationUrl(callback, UrlEncode(VerifyParams(mode, topic, challenge, realLease, verifyToken)));
    var outcome := OutcomeOf(mode, response, challenge);
    recordFeed := false;
    match outcome {
      case Confirmed =>
        if mode == Subscribe {
          var _ := store.Insert(callback, topic, verifyToken, secret, "sha1", realLease, now);
          recordFeed := recordTopic;
        } else {
          var _ := store.Remove(callback, topic);
        }
      case ArchivedOn404 =>
        store.Archive(callback, topic);
      case NotConfirmed =>
    }
    ok := outcome != NotConfirmed;
  }

  // ---------------------------------------------------------------------------
  // SubscribeHandler.post: the status table

  /** The response status: 500 when urlparse raised (the framework's answer
      to an exception escaping the handler), 400 for a bad request, 503 when the datastore or
      task queue fails, 204 for an unsubscribe of nothing or a confirmed
      synchronous request, 409 for a synchronous request that was not
      confirmed, 202 for a queued asynchronous one. */
  function SubscribeStatus(req: Result<SubscribeRequest, SubscribeError>, exists_: bool, failure: bool,
                           confirmed: bool): (r: int)
    ensures r == 500 <==> req == Err(UrlRaised)
    ensures r == 400 <==> req.Err? && req.error != UrlRaised
    ensures r == 503 <==> req.Ok? && failure
    ensures r == 204 <==> (req.Ok? && !failure &&
                           ((req.value.mode == Unsubscribe && !exists_) || (req.value.verifyType == Sync && confirmed)))
    ensures r == 409 <==> req.Ok? && !failure && !(req.value.mode == Unsubscribe && !exists_)
                          && req.value.verifyType == Sync && !confirmed
    ensures r == 202 <==> req.Ok? && !failure && !(req.value.mode == Unsubscribe && !exists_)
                          && req.value.verifyType == Async
  {
    if req.Err? then (if req.error == UrlRaised then 500 else 400)
    else if failure then 503
    else if req.value.mode == Unsubscribe && !exists_ then 204
    else if req.value.verifyType == Sync then (if confirmed then 204 else 409)
    else assert req.value.verifyType == Async; 202
  }

  /** KnownFeed.record of `topic` when `c` holds. */
  method RecordIf(identities: Identity.FeedIdentityStore, c: bool, topic: string)
    modifies identities
    ensures identities.knownFeeds == old(identities.knownFeeds) && identities.identities == old(identities.identities)
    ensures identities.recordTasks == old(identities.recordTasks) + (if c then [topic] else [])
  {
    if c {
      identities.Record(topic);
    }
  }

  /** The synchronous branch of SubscribeHandler.post: the request is
      confirmed on the spot (204 when handled, 409 otherwise), and a
      confirmed subscribe queues the recording of the topic's feed. */
  method SubscribeSync(store: SubscriptionStore, identities: Identity.FeedIdentityStore, q: SubscribeRequest,
                       challenge: string, response: FetchResult, now: int)
    returns (status: int)
    requires store.Valid()
    modifies store, identities
    ensures store.Valid()
    ensures identities.knownFeeds == old(identities.knownFeeds) && identities.identities == old(identities.identities)
    ensures var outcome := OutcomeOf(q.mode, response, challenge);
      && status == (if outcome != NotConfirmed then 204 else 409)
      && store.subs == AfterConfirm(old(store.subs), store.hash, q.mode, q.topic, q.callback,
                                    q.verifyToken, q.secret, q.leaseSeconds, outcome, now)
      && store.tasks == old(store.tasks)
      && identities.recordTasks == old(identities.recordTasks)
                                   + (if outcome == Confirmed && q.mode == Subscribe then [q.topic] else [])
  {
    var ok, _, recordFeed := ConfirmSubscription(store, q.mode, q.topic, q.callback, q.verifyToken, q.secret,
                                                 q.leaseSeconds, true, challenge, response, now);
    status := if ok then 204 else 409;
    RecordIf(identities, recordFeed, q.topic);
  }

  /** The asynchronous branch of SubscribeHandler.post: a subscribe is
      recorded and its confirmation queued; an unsubscribe of an existing
      subscription clears its failures and queues a confirmation towards
      to_delete. */
  method SubscribeAsync(store: SubscriptionStore, q: SubscribeRequest, now: int)
    requires store.Valid()
    requires q.mode == Unsubscribe ==> SubKey(q.callback, q.topic) in store.subs
    modifies store
    ensures store.Valid()
    ensures var k := SubKey(q.callback, q.topic);
      && (q.mode == Subscribe ==>
            && store.subs == AfterRequestInsert(store.hash, old(store.subs), q.callback, q.topic,
                                                q.verifyToken, q.secret, "sha1", q.leaseSeconds, now)
            && store.tasks == old(store.tasks) + [ConfirmTask(k, Verified, q.verifyToken, q.secret, false,
                                                              ConfirmQueue(false), store.subs[k].eta)])
      && (q.mode == Unsubscribe ==>
            && store.subs == old(store.subs)[k := old(store.subs)[k].(confirmFailures := 0)]
            && store.tasks == old(store.tasks) + [ConfirmTask(k, ToDelete, q.verifyToken, "", false,
                                                              Config.SUBSCRIPTION_QUEUE, store.subs[k].eta)])
  {
    if q.mode == Subscribe {
      var _ := store.RequestInsert(q.callback, q.topic, q.verifyToken, q.secret, false, "sha1",
                                   q.leaseSeconds, now);
    } else {
      var _ := store.RequestRemove(q.callback, q.topic, q.verifyToken);
    }
  }

  /** SubscribeHandler.post once the request has been validated. */
  method HandleSubscribe(store: SubscriptionStore, identities: Identity.FeedIdentityStore,
                         req: Result<SubscribeRequest, SubscribeError>, failure: bool,
                         challenge: string, response: FetchResult, now: int)
    returns (status: int)
    requires store.Valid()
    modifies store, identities
    ensures store.Valid()
    ensures identities.knownFeeds == old(identities.knownFeeds) && identities.identities == old(identities.identities)
    ensures
      && (req.Err? ==> status == SubscribeStatus(req, false, failure, false))
      && (req.Err? || failure ==>
            store.subs == old(store.subs) && store.tasks == old(store.tasks)
            && identities.recordTasks == old(identities.recordTasks))
      && (req.Ok? ==>
            var q := req.value;
            var k := SubKey(q.callback, q.topic);
            var outcome := OutcomeOf(q.mode, response, challenge);
            && status == SubscribeStatus(req, k in old(store.subs), failure, outcome != NotConfirmed)
            && (!failure && q.mode == Unsubscribe && k !in old(store.subs) ==>
                  store.subs == old(store.subs) && store.tasks == old(store.tasks)
                  && identities.recordTasks == old(identities.recordTasks))
            && (!failure && q.verifyType == Async && q.mode == Subscribe ==>
                  && store.subs == AfterRequestInsert(store.hash, old(store.subs), q.callback, q.topic,
                                                      q.verifyToken, q.secret, "sha1", q.leaseSeconds, now)
                  && store.tasks == old(store.tasks) + [ConfirmTask(k, Verified, q.verifyToken, q.secret, false,
                                                                    ConfirmQueue(false), store.subs[k].eta)]
                  && identities.recordTasks == old(identities.recordTasks))
            && (!failure && q.verifyType == Async && q.mode == Unsubscribe && k in old(store.subs) ==>
                  && store.subs == old(store.subs)[k := old(store.subs)[k].(confirmFailures := 0)]
                  && store.tasks == old(store.tasks) + [ConfirmTask(k, ToDelete, q.verifyToken, "", false,
                                                                    Config.SUBSCRIPTION_QUEUE, store.subs[k].eta)]
                  && identities.recordTasks == old(identities.recordTasks))
            && (!failure && q.verifyType == Sync && !(q.mode == Unsubscribe && k !in old(store.subs)) ==>
                  && store.subs == AfterConfirm(old(store.subs), store.hash, q.mode, q.topic, q.callback,
                                                q.verifyToken, q.secret, q.leaseSeconds, outcome, now)
                  && store.tasks == old(store.tasks)
                  && identities.recordTasks == old(identities.recordTasks)
                                               + (if outcome == Confirmed && q.mode == Subscribe
                                                  then [q.topic] else [])))
  {
    if req.Err? {
      return if req.error == UrlRaised then 500 else 400;
    }
    if failure {
      return 503;
    }
    var q := req.value;
    var k := SubKey(q.callback, q.topic);
    if q.mode == Unsubscribe && k !in store.subs {
      return 204;
    }
    if q.verifyType == Sync {
      status := SubscribeSync(store, identities, q, challenge, response, now);
    } else {
      SubscribeAsync(store, q, now);
      status := 202;
    }
  }

  /** SubscribeHandler.post. `failure` says the datastore or task queue
      raised an error, which the model places before any write. The status
      follows SubscribeStatus; the store changes as SubscribeSync or
      SubscribeAsync say, and not at all for an unsubscribe of nothing. */
  method SubscribePost(store: SubscriptionStore, identities: Identity.FeedIdentityStore,
                       params: seq<(string, string)>, devEnv: bool, failure: bool,
                       challenge: string, response: FetchResult, now: int)
    returns (status: int)
    requires store.Valid()
    modifies store, identities
    ensures store.Valid()
    ensures identities.knownFeeds == old(identities.knownFeeds) && identities.identities == old(identities.identities)
    ensures var req := ValidateSubscribe(ReadSubscribe(params), devEnv);
      && (req.Err? ==> status == SubscribeStatus(req, false, failure, false))
      && (req.Err? || failure ==>
            store.subs == old(store.subs) && store.tasks == old(store.tasks)
            && identities.recordTasks == old(identities.recordTasks))
      && (req.Ok? ==>
            var q := req.value;
            var k := SubKey(q.callback, q.topic);
            var outcome := OutcomeOf(q.mode, response, challenge);
            && status == SubscribeStatus(req, k in old(store.subs), failure, outcome != NotConfirmed)
            && (!failure && q.mode == Unsubscribe && k !in old(store.subs) ==>
                  store.subs == old(store.subs) && store.tasks == old(store.tasks)
                  && identities.recordTasks == old(identities.recordTasks))
            && (!failure && q.verifyType == Async && q.mode == Subscribe ==>
                  && store.subs == AfterRequestInsert(store.hash, old(store.subs), q.callback, q.topic,
                                                      q.verifyToken, q.secret, "sha1", q.leaseSeconds, now)
                  && store.tasks == old(store.tasks) + [ConfirmTask(k, Verified, q.verifyToken, q.secret, false,
                                                                    ConfirmQueue(false), store.subs[k].eta)]
                  && identities.recordTasks == old(identities.recordTasks))
            && (!failure && q.verifyType == Async && q.mode == Unsubscribe && k in old(store.subs) ==>
                  && store.subs == old(store.subs)[k := old(store.subs)[k].(confirmFailures := 0)]
                  && store.tasks == old(store.tasks) + [ConfirmTask(k, ToDelete, q.verifyToken, "", false,
                                                                    Config.SUBSCRIPTION_QUEUE, store.subs[k].eta)]
                  && identities.recordTasks == old(identities.recordTasks))
            && (!failure && q.verifyType == Sync && !(q.mode == Unsubscribe && k !in old(store.subs)) ==>
                  && store.subs == AfterConfirm(old(store.subs), store.hash, q.mode, q.topic, q.callback,
                                                q.verifyToken, q.secret, q.leaseSeconds, outcome, now)
                  && store.tasks == old(store.tasks)
                  && identities.recordTasks == old(identities.recordTasks)
                                               + (if outcome == Confirmed && q.mode == Subscribe
                                                  then [q.topic] else [])))
  {
    status := HandleSubscribe(store, identities, ValidateSubscribe(ReadSubscribe(params), devEnv), failure,
                              challenge, response, now);
  }

  // ---------------------------------------------------------------------------
  // SubscriptionConfirmHandler.post

  /** The background confirmation of a queued request: a task for a
      subscription that no longer exists does nothing; a task towards
      to_delete confirms an unsubscribe, any other a subscribe, with the
      stored lease. When the confirmation fails the failure is recorded, and
      an automatic reconfirmation that has failed too often archives the
      subscription. */
  method ConfirmTaskPost(store: SubscriptionStore, task: ConfirmTask, challenge: string, response: FetchResult,
                         now: int)
    requires store.Valid()
    modifies store
    ensures store.Valid()
    ensures task.key !in old(store.subs) ==> store.subs == old(store.subs) && store.tasks == old(store.tasks)
    ensures task.key in old(store.subs) ==>
      var sub := old(store.subs)[task.key];
      var mode := if task.nextState == ToDelete then Unsubscribe else Subscribe;
      var outcome := OutcomeOf(mode, response, challenge);
      var backoff := ConfirmFailedOutcome(sub, Config.MAX_SUBSCRIPTION_CONFIRM_FAILURES,
                                          Config.SUBSCRIPTION_RETRY_PERIOD, now).1;
      && (outcome != NotConfirmed ==>
            store.subs == AfterConfirm(old(store.subs), store.hash, mode, sub.topic, sub.callback,
                                       task.verifyToken, task.secret, sub.leaseSeconds, outcome, now)
            && store.tasks == old(store.tasks))
      && (outcome == NotConfirmed && sub.confirmFailures < Config.MAX_SUBSCRIPTION_CONFIRM_FAILURES ==>
            store.subs == old(store.subs)[task.key := backoff]
            && store.tasks == old(store.tasks) + [ConfirmTask(task.key, task.nextState, task.verifyToken, task.secret,
                                                              task.autoReconfirm, ConfirmQueue(task.autoReconfirm),
                                                              backoff.eta)])
      && (outcome == NotConfirmed && sub.confirmFailures >= Config.MAX_SUBSCRIPTION_CONFIRM_FAILURES ==>
            store.subs == (if task.autoReconfirm && mode == Subscribe
                           then AfterArchive(old(store.subs), task.key) else old(store.subs))
            && store.tasks == old(store.tasks))
  {
    if task.key !in store.subs {
      return;
    }
    var sub := store.subs[task.key];
    var mode := if task.nextState == ToDelete then Unsubscribe else Subscribe;
    var ok, _, _ := ConfirmSubscription(store, mode, sub.topic, sub.callback, task.verifyToken, task.secret,
                                        sub.leaseSeconds, false, challenge, response, now);
    if !ok {
      var retry := store.ConfirmFailed(sub, task.nextState, task.verifyToken, task.autoReconfirm, task.secret,
                                       Config.MAX_SUBSCRIPTION_CONFIRM_FAILURES,
                                       Config.SUBSCRIPTION_RETRY_PERIOD, now);
      if !retry && task.autoReconfirm && mode == Subscribe {
        store.Archive(sub.callback, sub.topic);
      }
    }
  }
}
