/** EventToDeliver: one publish event pushed to every verified subscriber of
    a topic. The event is built from the feed's header/footer and the new
    entries; delivery pages through the subscribers in callback-hash order
    (normal mode), remembering the subscriptions that failed, and then
    drains the failed list again and again with exponential backoff (retry
    mode) until it is empty or the event gives up. The push handler records
    which deliveries of a chunk failed. */
module Events {
  import opened Common
  import Config
  import opened Subscriptions

  // ---------------------------------------------------------------------------
  // Building the payload

  const XML_DECLARATION := "<?xml version=\"1.0\" encoding=\"utf-8\"?>"

  /** The assertions of create_event_for_topic: an XML envelope without a
      closing tag, or an RSS envelope without the closing tag of the
      channel. */
  datatype EnvelopeError = NoClosingTag | NoChannelClosingTag

  predicate HasClosing(s: string)
  {
    exists i :: 0 <= i <= |s| && MatchesAt(s, "</", i)
  }

  /** The last "</" of s starts at index i. */
  predicate LastClosing(s: string, i: int)
  {
    0 <= i && MatchesAt(s, "</", i) && forall j :: i < j <= |s| ==> !MatchesAt(s, "</", j)
  }

  /** Where the entries go in an XML envelope, and the content type the
      event is announced with. */
  datatype Splice = Splice(at: nat, contentType: string)

  /** The content type announced for an XML feed whose last tag is endTag. */
  function TagContentType(endTag: string, contentType: string): string
  {
    if Contains(endTag, "rss") then "application/rss+xml"
    else if Contains(endTag, "feed") then "application/atom+xml"
    else if Contains(endTag, "rdf") then "application/rdf+xml"
    else contentType
  }

  /** The entries go before the last closing tag, or before the one ahead of
      it when the last mentions rss (</channel></rss>). The last tag also
      decides the content type: rss, atom for "feed", rdf, or the fetched
      content type otherwise. */
  function SpliceAt(headerFooter: string, contentType: string): (r: Result<Splice, EnvelopeError>)
    ensures r == Err(NoClosingTag) <==> !HasClosing(headerFooter)
    ensures r.Ok? ==> r.value.at <= |headerFooter| && MatchesAt(headerFooter, "</", r.value.at)
    ensures forall k :: LastClosing(headerFooter, k) && !Contains(headerFooter[k..], "rss") ==>
              r.Ok? && r.value.at == k
    ensures forall k :: LastClosing(headerFooter, k) && Contains(headerFooter[k..], "rss") ==>
              && (r == Err(NoChannelClosingTag) <==> !HasClosing(headerFooter[..k]))
              && (r.Ok? ==> LastClosing(headerFooter[..k], r.value.at))
    ensures forall k :: LastClosing(headerFooter, k) && r.Ok? ==>
              r.value.contentType == TagContentType(headerFooter[k..], contentType)
  {
    var close := RFind(headerFooter, "</");
    RFindClosing(headerFooter);
    if close == -1 then Err(NoClosingTag)
    else
      var endTag := headerFooter[close..];
      if Contains(endTag, "rss") then
        var outer := RFind(headerFooter[..close], "</");
        RFindClosing(headerFooter[..close]);
        if outer == -1 then Err(NoChannelClosingTag)
        else
          MatchesInPrefix(headerFooter, close, outer);
          Ok(Splice(outer, TagContentType(endTag, contentType)))
      else Ok(Splice(close, TagContentType(endTag, contentType)))
  }

  lemma RFindClosing(s: string)
    ensures RFind(s, "</") == -1 <==> !HasClosing(s)
    ensures RFind(s, "</") >= 0 ==> LastClosing(s, RFind(s, "</"))
    ensures forall k :: LastClosing(s, k) ==> k == RFind(s, "</")
  {
  }

  lemma MatchesInPrefix(s: string, n: nat, i: nat)
    requires n <= |s| && MatchesAt(s[..n], "</", i)
    ensures MatchesAt(s, "</", i)
  {
    assert s[..n][i..i + 2] == s[i..i + 2];
  }

  /** Every entry followed by a line break. */
  function Lines(entries: seq<string>): string
  {
    if entries == [] then "" else entries[0] + "\n" + Lines(entries[1..])
  }

  /** create_event_for_topic's payload and content type: for the arbitrary
      format the document itself; for Atom and RSS the XML declaration, the
      envelope up to the splice point, the entries and the rest of the
      envelope, one per line. */
  function EventPayload(format: Config.Format, contentType: string, headerFooter: string, entries: seq<string>)
    : (r: Result<(string, string), EnvelopeError>)
    ensures format == Config.Arbitrary ==> r == Ok((headerFooter, contentType))
    ensures format != Config.Arbitrary ==>
      match SpliceAt(headerFooter, contentType)
      case Err(e) => r == Err(e)
      case Ok(s) =>
        && r.Ok? && r.value.1 == s.contentType
        && r.value.0 == XML_DECLARATION + "\n" + headerFooter[..s.at] + "\n" + Lines(entries) + headerFooter[s.at..]
  {
    if format == Config.Arbitrary then Ok((headerFooter, contentType))
    else
      match SpliceAt(headerFooter, contentType)
      case Err(e) => Err(e)
      case Ok(s) =>
        var head, tail := headerFooter[..s.at], headerFooter[s.at..];
        JoinAround(XML_DECLARATION, head, entries, tail);
        Ok((Join("\n", [XML_DECLARATION, head] + entries + [tail]), s.contentType))
  }

  lemma JoinAround(a: string, b: string, entries: seq<string>, c: string)
    ensures Join("\n", [a, b] + entries + [c]) == a + "\n" + b + "\n" + Lines(entries) + c
  {
    assert [a, b] + entries + [c] == [a] + ([b] + entries + [c]);
    JoinBefore(b, entries, c);
  }

  lemma {:induction false} JoinBefore(x: string, entries: seq<string>, c: string)
    ensures Join("\n", [x] + entries + [c]) == x + "\n" + Lines(entries) + c
    decreases |entries|
  {
    if entries != [] {
      assert [x] + entries + [c] == [x] + ([entries[0]] + entries[1..] + [c]);
      JoinBefore(entries[0], entries[1..], c);
    }
  }

  // ---------------------------------------------------------------------------
  // The delivery cursor

  datatype DeliveryMode = Normal | Retry

  /** A task of an event delivery queue: which queue and when it may run. */
  datatype DeliveryTask = DeliveryTask(queue: string, eta: int)

  /** The fields update() changes (times in seconds). */
  datatype Progress = Progress(
    lastCallback: string, failed: seq<SubKey>, mode: DeliveryMode,
    retryAttempts: nat, lastModified: int, totallyFailed: bool)

  function Min(a: int, b: int): int
  {
    if a < b then a else b
  }

  /** The keys of a list of subscriptions, in order. */
  function KeysOf(subs: seq<Subscription>): (r: seq<SubKey>)
    ensures |r| == |subs| && forall i :: 0 <= i < |subs| ==> r[i] == KeyOf(subs[i])
  {
    if subs == [] then [] else [KeyOf(subs[0])] + KeysOf(subs[1..])
  }

  /** db.get on a list of keys with the missing entities dropped: the stored
      subscriptions of the keys, in key order. */
  function Resolve(subs: map<SubKey, Subscription>, keys: seq<SubKey>): (r: seq<Subscription>)
    ensures |r| <= |keys|
    ensures forall k :: k in keys && k in subs ==> subs[k] in r
    ensures forall s :: s in r ==> exists k :: k in keys && k in subs && subs[k] == s
  {
    if keys == [] then []
    else
      var rest := Resolve(subs, keys[1..]);
      assert forall k :: k in keys[1..] ==> k in keys;
      if keys[0] in subs then [subs[keys[0]]] + rest else rest
  }

  /** The retry-mode chunk: at most chunk keys from the front of the failed
      list, cut before the sentinel key when it is among them. Returns the
      chunk and whether more keys wait in this pass. */
  function RetryChunk(failed: seq<SubKey>, chunk: nat, sentinel: Option<SubKey>): (r: (seq<SubKey>, bool))
    ensures |r.0| <= chunk && |r.0| <= |failed| && r.0 == failed[..|r.0|]
    ensures sentinel.None? || sentinel.value !in failed[..Min(chunk, |failed|)] ==>
              r.0 == failed[..Min(chunk, |failed|)] && (r.1 <==> |failed| > chunk)
    ensures sentinel.Some? && sentinel.value in failed[..Min(chunk, |failed|)] ==>
              && sentinel.value !in r.0 && |r.0| < |failed| && failed[|r.0|] == sentinel.value && !r.1
  {
    var next := failed[..Min(chunk, |failed|)];
    var more := |failed| > |next|;
    if sentinel.Some? then
      match IndexOf(next, sentinel.value)
      case Some(i) => (next[..i], false)
      case None => (next, more)
    else (next, more)
  }

  /** A subscription goes before every later one whose callback hash is not
      smaller. */
  function InsertByHash(x: Subscription, s: seq<Subscription>): (r: seq<Subscription>)
    requires SortedByHash(s)
    ensures SortedByHash(r) && multiset(r) == multiset(s) + multiset{x}
    ensures forall y :: y in r ==> y == x || y in s
  {
    if s == [] then [x]
    else if LexLe(x.callbackHash, s[0].callbackHash) then
      ConsSorted(x, s);
      [x] + s
    else
      LexLeTotal(x.callbackHash, s[0].callbackHash);
      var rest := InsertByHash(x, s[1..]);
      assert s == [s[0]] + s[1..];
      HeadBelowTail(s);
      ConsSorted(s[0], rest);
      [s[0]] + rest
  }

  /** In a sorted list the head's hash is below every later one. */
  lemma HeadBelowTail(s: seq<Subscription>)
    requires s != [] && SortedByHash(s)
    ensures forall y :: y in s[1..] ==> LexLe(s[0].callbackHash, y.callbackHash)
  {
    forall y | y in s[1..] ensures LexLe(s[0].callbackHash, y.callbackHash) {
      var j :| 0 <= j < |s[1..]| && s[1..][j] == y;
      assert s[j + 1] == y;
    }
  }

  /** Putting a subscription whose hash is not above the head's in front of
      a sorted list keeps it sorted. */
  lemma ConsSorted(x: Subscription, s: seq<Subscription>)
    requires SortedByHash(s)
    requires s != [] ==> LexLe(x.callbackHash, s[0].callbackHash) || forall y :: y in s ==> LexLe(x.callbackHash, y.callbackHash)
    ensures SortedByHash([x] + s)
  {
    var r := [x] + s;
    forall i, j | 0 <= i < j < |r| ensures LexLe(r[i].callbackHash, r[j].callbackHash) {
      if i == 0 {
        assert r[j] == s[j - 1] && s[j - 1] in s;
        if !(forall y :: y in s ==> LexLe(x.callbackHash, y.callbackHash)) {
          if j > 1 { LexLeTransitive(x.callbackHash, s[0].callbackHash, s[j - 1].callbackHash); }
        }
      } else {
        assert r[i] == s[i - 1] && r[j] == s[j - 1];
      }
    }
  }

  /** sorted(failed, key=callback_hash): the same subscriptions in ascending
      callback hash order. */
  function SortByHash(s: seq<Subscription>): (r: seq<Subscription>)
    ensures SortedByHash(r) && multiset(r) == multiset(s)
  {
    if s == [] then []
    else
      assert s == [s[0]] + s[1..];
      InsertByHash(s[0], SortByHash(s[1..]))
  }

  /** The per-event failure cap overrides the default. */
  function EffectiveMax(perEvent: Option<int>, default: int): int
  {
    if perEvent.Some? then perEvent.value else default
  }

  /** EventToDeliver.update on the progress fields: newly failed keys are
      kept at the end of the failed list; when this was the last chunk and
      nothing failed the event is deleted (None); when this was the last
      chunk of a pass, the pass is closed: the cursor resets, the attempt is
      counted, the event enters retry mode and either gives up (more
      attempts than allowed) or waits retry_period * 2^(attempts - 1)
      seconds. */
  function AfterUpdate(p: Progress, more: bool, newlyFailed: seq<SubKey>, now: int,
                       maxFailures: int, retryPeriod: int): (r: Option<Progress>)
    ensures r.None? <==> !more && p.failed + newlyFailed == []
    ensures r.Some? ==> r.value.failed == p.failed + newlyFailed
    ensures r.Some? && more ==> r.value == p.(failed := p.failed + newlyFailed, lastModified := now)
    ensures r.Some? && !more ==>
      && r.value.lastCallback == "" && r.value.mode == Retry
      && r.value.retryAttempts == p.retryAttempts + 1
      && (r.value.totallyFailed <==> p.totallyFailed || p.retryAttempts + 1 > maxFailures)
      && r.value.lastModified == (if p.retryAttempts + 1 > maxFailures then now
                                  else now + RetryDelay(retryPeriod, p.retryAttempts))
  {
    var failed := p.failed + newlyFailed;
    if !more && failed == [] then None
    else if more then Some(p.(failed := failed, lastModified := now))
    else
      var attempts := p.retryAttempts + 1;
      var gaveUp := attempts > maxFailures;
      Some(Progress("", failed, Retry, attempts,
                    if gaveUp then now else now + retryPeriod * Pow2(attempts - 1),
                    p.totallyFailed || gaveUp))
  }

  /** The progress after k passes that each end with failures still
      pending, all closed at time `now`. */
  function RepeatPasses(p: Progress, k: nat, now: int, maxFailures: int, retryPeriod: int): (r: Progress)
    requires p.failed != []
    ensures r.failed == p.failed
  {
    if k == 0 then p
    else
      var q := RepeatPasses(p, k - 1, now, maxFailures, retryPeriod);
      AfterUpdate(q, false, [], now, maxFailures, retryPeriod).value
  }

  /** An event whose failed subscribers keep failing is retried exactly
      max_failures times, the k-th retry retry_period * 2^(k-1) seconds
      after its pass ended, and then gives up. */
  lemma {:induction false} RetryPassesGiveUp(p: Progress, k: nat, now: int, maxFailures: nat, retryPeriod: int)
    requires p.failed != [] && p.retryAttempts == 0 && !p.totallyFailed
    ensures var after := RepeatPasses(p, k, now, maxFailures, retryPeriod);
      && after.retryAttempts == k
      && (after.totallyFailed <==> k > maxFailures)
      && (0 < k <= maxFailures ==> after.lastModified == now + RetryDelay(retryPeriod, k - 1))
      && (0 < k ==> after.mode == Retry && after.lastCallback == "")
  {
    if k > 0 {
      RetryPassesGiveUp(p, k - 1, now, maxFailures, retryPeriod);
    }
  }

  /** enqueue's target: the retries queue in retry mode, else the polling
      queue when the current request came from it, else the event queue. */
  function EnqueueTarget(mode: DeliveryMode, fromPollingQueue: bool): (q: string)
    ensures q in {Config.EVENT_RETRIES_QUEUE, Config.POLLING_QUEUE, Config.EVENT_QUEUE}
    ensures mode == Retry <==> q == Config.EVENT_RETRIES_QUEUE
  {
    if mode == Retry then Config.EVENT_RETRIES_QUEUE
    else if fromPollingQueue then Config.POLLING_QUEUE
    else Config.EVENT_QUEUE
  }

  class EventToDeliver {
    const topic: string
    const topicHash: string
    const payload: string
    const contentType: string
    const maxFailures: Option<int>
    /** The paging cursor in normal mode, the sentinel in retry mode. */
    var lastCallback: string
    var failedCallbacks: seq<SubKey>
    var deliveryMode: DeliveryMode
    var retryAttempts: nat
    var lastModified: int
    var totallyFailed: bool
    /** Whether update() deleted the entity. */
    ghost var deleted: bool
    /** Delivery tasks enqueued for this event so far, oldest first. */
    ghost var tasks: seq<DeliveryTask>

    /** A new event, not yet stored. */
    constructor(topic: string, topicHash: string, payload: string, contentType: string, now: int,
                maxFailures: Option<int>)
      ensures this.topic == topic && this.topicHash == topicHash && this.payload == payload
      ensures this.contentType == contentType && this.maxFailures == maxFailures
      ensures Snapshot() == Progress("", [], Normal, 0, now, false)
      ensures !deleted && tasks == []
    {
      this.topic := topic;
      this.topicHash := topicHash;
      this.payload := payload;
      this.contentType := contentType;
      this.maxFailures := maxFailures;
      lastCallback := "";
      failedCallbacks := [];
      deliveryMode := Normal;
      retryAttempts := 0;
      lastModified := now;
      totallyFailed := false;
      deleted := false;
      tasks := [];
    }

    function Snapshot(): Progress
      reads this
    {
      Progress(lastCallback, failedCallbacks, deliveryMode, retryAttempts, lastModified, totallyFailed)
    }

    /** get_next_subscribers. In normal mode: one page of chunk + 1 verified
      subscribers from the cursor on; the first chunk of them are handed
      out, "more" says whether the extra one exists, and the cursor moves
      to the last one fetched. In retry mode: the retry chunk of the failed
      list is removed from its front and resolved to the subscriptions
      still stored; the first one handed out in a pass becomes the
      sentinel. */
    method GetNextSubscribers(store: SubscriptionStore, chunk: nat) returns (more: bool, list: seq<Subscription>)
      modifies this
      ensures deliveryMode == old(deliveryMode) && retryAttempts == old(retryAttempts)
      ensures lastModified == old(lastModified) && totallyFailed == old(totallyFailed)
      ensures deleted == old(deleted) && tasks == old(tasks)
      ensures old(deliveryMode) == Normal ==>
        && failedCallbacks == old(failedCallbacks)
        && exists page: seq<Subscription> :: IsPage(page, store.Candidates(topic, old(lastCallback)), chunk + 1)
                          && (more <==> |page| > chunk) && list == page[..Min(chunk, |page|)]
                          && lastCallback == (if page == [] then "" else page[|page| - 1].callback)
      ensures old(deliveryMode) == Retry ==>
        var sentinel := if old(lastCallback) == "" then None else Some(SubKey(old(lastCallback), topic));
        var next := RetryChunk(old(failedCallbacks), chunk, sentinel);
        && more == next.1 && list == Resolve(store.subs, next.0)
        && failedCallbacks == old(failedCallbacks)[|next.0|..]
        && lastCallback == (if old(lastCallback) == "" && list != [] then list[0].callback else old(lastCallback))
    {
      if deliveryMode == Normal {
        var page := store.GetSubscribers(topic, chunk + 1, lastCallback);
        lastCallback := if page != [] then page[|page| - 1].callback else "";
        more := |page| > chunk;
        list := page[..Min(chunk, |page|)];
      } else {
        var sentinel := if lastCallback == "" then None else Some(SubKey(lastCallback, topic));
        var next := RetryChunk(failedCallbacks, chunk, sentinel);
        more := next.1;
        list := Resolve(store.subs, next.0);
        if list != [] && lastCallback == "" {
          lastCallback := list[0].callback;
        }
        failedCallbacks := failedCallbacks[|next.0|..];
      }
    }

    /** EventToDeliver.update followed by its transaction: the progress
      becomes AfterUpdate's, with the newly failed subscriptions' keys
      added in callback hash order; a deleted event is neither stored nor
      enqueued, and a stored one is enqueued at its new last_modified
      unless it gave up. */
    method Update(more: bool, newlyFailed: seq<Subscription>, now: int, defaultMaxFailures: int,
                  retryPeriod: int, fromPollingQueue: bool)
      requires !deleted
      modifies this
      ensures var r := AfterUpdate(old(Snapshot()), more, KeysOf(SortByHash(newlyFailed)), now,
                                   EffectiveMax(maxFailures, defaultMaxFailures), retryPeriod);
        && (deleted <==> r.None?)
        && (r.Some? ==> Snapshot() == r.value)
      ensures deleted || totallyFailed ==> tasks == old(tasks)
      ensures !deleted && !totallyFailed ==>
                tasks == old(tasks) + [DeliveryTask(EnqueueTarget(deliveryMode, fromPollingQueue), lastModified)]
    {
      var keys := KeysOf(SortByHash(newlyFailed));
      Advance(more, keys, now, EffectiveMax(maxFailures, defaultMaxFailures), retryPeriod, fromPollingQueue);
    }

    /** The body of update once the newly failed keys are in hash order. */
    method Advance(more: bool, keys: seq<SubKey>, now: int, maxAllowed: int, retryPeriod: int,
                   fromPollingQueue: bool)
      requires !deleted
      modifies this
      ensures var r := AfterUpdate(old(Snapshot()), more, keys, now, maxAllowed, retryPeriod);
        && (deleted <==> r.None?)
        && (r.Some? ==> Snapshot() == r.value)
      ensures deleted || totallyFailed ==> tasks == old(tasks)
      ensures !deleted && !totallyFailed ==>
                tasks == old(tasks) + [DeliveryTask(EnqueueTarget(deliveryMode, fromPollingQueue), lastModified)]
    {
      ghost var r := AfterUpdate(Snapshot(), more, keys, now, maxAllowed, retryPeriod);
      lastModified := now;
      failedCallbacks := failedCallbacks + keys;
      if !more && failedCallbacks == [] {
        deleted := true;
        return;
      }
      if !more {
        lastCallback := "";
        retryAttempts := retryAttempts + 1;
        if retryAttempts > maxAllowed {
          totallyFailed := true;
        } else {
          lastModified := lastModified + RetryDelay(retryPeriod, retryAttempts - 1);
        }
        deliveryMode := Retry;
      }
      assert Snapshot() == r.value;
      if !totallyFailed {
        Enqueue(fromPollingQueue);
      }
    }

    /** enqueue: a task for this event on the queue of its mode, due at
      last_modified. */
    method Enqueue(fromPollingQueue: bool)
      modifies this
      ensures Snapshot() == old(Snapshot()) && deleted == old(deleted)
      ensures tasks == old(tasks) + [DeliveryTask(EnqueueTarget(deliveryMode, fromPollingQueue), lastModified)]
    {
      tasks := tasks + [DeliveryTask(EnqueueTarget(deliveryMode, fromPollingQueue), lastModified)];
    }
  }

  /** create_event_for_topic: a new event holding the payload and content
      type EventPayload gives, or the envelope error. */
  method CreateEventForTopic(topic: string, hash: string -> string, format: Config.Format, contentType: string,
                             headerFooter: string, entryPayloads: seq<string>, now: int, maxFailures: Option<int>)
    returns (r: Result<EventToDeliver, EnvelopeError>)
    ensures match EventPayload(format, contentType, headerFooter, entryPayloads)
      case Err(e) => r == Err(e)
      case Ok(pc) =>
        && r.Ok? && fresh(r.value)
        && r.value.topic == topic && r.value.topicHash == hash(topic)
        && r.value.payload == pc.0 && r.value.contentType == pc.1 && r.value.maxFailures == maxFailures
        && r.value.Snapshot() == Progress("", [], Normal, 0, now, false)
        && !r.value.deleted && r.value.tasks == []
  {
    match EventPayload(format, contentType, headerFooter, entryPayloads)
    case Err(e) => r := Err(e);
    case Ok(pc) =>
      var event := new EventToDeliver(topic, hash(topic), pc.0, pc.1, now, maxFailures);
      r := Ok(event);
  }

  /** Paging in normal mode neither skips nor repeats a subscriber: when a
      page of chunk + 1 comes back full, the next page starts from its last
      record and selects exactly the candidates not handed out yet. */
  lemma NormalPagesNeitherSkipNorRepeat(store: SubscriptionStore, topic: string, start: string,
                                        page: seq<Subscription>, chunk: nat)
    requires store.Valid() && DistinctHashes(store.VerifiedOf(topic))
    requires forall s :: s in store.VerifiedOf(topic) ==> s.callback != ""
    requires IsPage(page, store.Candidates(topic, start), chunk + 1) && |page| == chunk + 1
    ensures store.Candidates(topic, page[chunk].callback)
            == store.Candidates(topic, start) - (set i | 0 <= i < chunk :: page[i])
  {
    var v := store.VerifiedOf(topic);
    var h0 := if start == "" then "" else store.hash(start);
    assert store.Candidates(topic, start) == From(v, h0) by {
      if start == "" {
        assert forall s :: s in v ==> LexLe("", s.callbackHash);
      }
    }
    NextPageNeitherSkipsNorRepeats(v, h0, page, chunk);
    var last := page[chunk];
    assert last in v;
    var k :| k in store.subs && store.subs[k] == last;
    assert store.hash(last.callback) == last.callbackHash;
  }

  // ---------------------------------------------------------------------------
  // The push handler's bookkeeping

  /** The request headers of one delivery: the event's content type or
      text/xml, and an HMAC-SHA1 signature keyed with the subscription's
      secret or, without one, its verify token. */
  function DeliveryHeaders(contentType: string, sub: Subscription, payload: string,
                           hmac: (string, string) -> string): (h: map<string, string>)
    ensures h.Keys == {"Content-Type", "X-Hub-Signature"}
    ensures h["Content-Type"] == (if contentType != "" then contentType else "text/xml")
    ensures sub.secret != "" ==> h["X-Hub-Signature"] == "sha1=" + hmac(sub.secret, payload)
    ensures sub.secret == "" ==> h["X-Hub-Signature"] == "sha1=" + hmac(sub.verifyToken, payload)
  {
    var key := if sub.secret != "" then sub.secret else if sub.verifyToken != "" then sub.verifyToken else "";
    map["Content-Type" := if contentType != "" then contentType else "text/xml",
        "X-Hub-Signature" := "sha1=" + hmac(key, payload)]
  }

  /** PushEventHandler.post's two sets: every subscriber of the chunk starts
      as attempted and failed; one the delivery scorer blocks is dropped
      from both, as if never seen; one that answered 2xx is dropped from
      the failed set. */
  method DeliveryOutcome(chunk: seq<Subscription>, allowed: Subscription -> bool, delivered: Subscription -> bool)
    returns (attempted: set<Subscription>, failed: set<Subscription>)
    ensures attempted == set s | s in chunk && allowed(s)
    ensures failed == set s | s in chunk && allowed(s) && !delivered(s)
  {
    var all := SetOf(chunk);
    attempted := all;
    failed := all;
    var order := SetToSeq(all);
    var i := 0;
    while i < |order|
      invariant 0 <= i <= |order|
      invariant attempted == set s | s in all && (s !in order[..i] || allowed(s))
      invariant failed == set s | s in all && (s !in order[..i] || (allowed(s) && !delivered(s)))
    {
      var sub := order[i];
      assert order[..i + 1] == order[..i] + [sub];
      if !allowed(sub) {
        attempted := attempted - {sub};
        failed := failed - {sub};
      } else if delivered(sub) {
        failed := failed - {sub};
      }
      i := i + 1;
    }
    assert order[..i] == order;
  }

  /** PushEventHandler.post on an event that exists: fetch the next chunk,
      deliver to it, and update the event with the failures. Every
      subscriber of the chunk the scorer allowed and that did not answer
      2xx is kept on the event's failed list; the event is deleted only
      when nothing failed. */
  method PushEventPost(event: EventToDeliver, store: SubscriptionStore, chunk: nat,
                       allowed: Subscription -> bool, delivered: Subscription -> bool,
                       now: int, defaultMaxFailures: int, retryPeriod: int, fromPollingQueue: bool)
    returns (sent: seq<Subscription>, more: bool, failed: set<Subscription>, failedOrder: seq<Subscription>)
    requires !event.deleted
    modifies event
    ensures failed == set s | s in sent && allowed(s) && !delivered(s)
    ensures SetOf(failedOrder) == failed && NoDup(failedOrder)
    ensures event.deleted ==> failed == {}
    ensures !event.deleted ==> forall s :: s in failed ==> KeyOf(s) in event.failedCallbacks
    ensures old(event.deliveryMode) == Normal ==>
      exists page: seq<Subscription> :: IsPage(page, store.Candidates(event.topic, old(event.lastCallback)), chunk + 1)
        && (more <==> |page| > chunk) && sent == page[..Min(chunk, |page|)]
        && Updated(event, old(event.Snapshot()).(lastCallback := if page == [] then "" else page[|page| - 1].callback),
                   more, failedOrder, now, defaultMaxFailures, retryPeriod)
    ensures old(event.deliveryMode) == Retry ==>
      var sentinel := if old(event.lastCallback) == "" then None else Some(SubKey(old(event.lastCallback), event.topic));
      var next := RetryChunk(old(event.failedCallbacks), chunk, sentinel);
      && more == next.1 && sent == Resolve(store.subs, next.0)
      && Updated(event, old(event.Snapshot()).(
                   failed := old(event.failedCallbacks)[|next.0|..],
                   lastCallback := if old(event.lastCallback) == "" && sent != [] then sent[0].callback
                                   else old(event.lastCallback)),
                 more, failedOrder, now, defaultMaxFailures, retryPeriod)
    ensures event.deleted || event.totallyFailed ==> event.tasks == old(event.tasks)
    ensures !event.deleted && !event.totallyFailed ==>
              event.tasks == old(event.tasks)
                             + [DeliveryTask(EnqueueTarget(event.deliveryMode, fromPollingQueue), event.lastModified)]
  {
    ghost var before := event.Snapshot();
    more, sent := event.GetNextSubscribers(store, chunk);
    ghost var mid := event.Snapshot();
    failed, failedOrder := DeliverChunk(event, sent, more, allowed, delivered, now, defaultMaxFailures, retryPeriod,
                                        fromPollingQueue);
    if before.mode == Normal {
      ghost var page: seq<Subscription> :| IsPage(page, store.Candidates(event.topic, before.lastCallback), chunk + 1)
        && (more <==> |page| > chunk) && sent == page[..Min(chunk, |page|)]
        && mid.lastCallback == (if page == [] then "" else page[|page| - 1].callback);
      assert mid == before.(lastCallback := if page == [] then "" else page[|page| - 1].callback);
    }
  }

  /** The delivery of one chunk and the update of the event with its
      failures. */
  method DeliverChunk(event: EventToDeliver, sent: seq<Subscription>, more: bool,
                      allowed: Subscription -> bool, delivered: Subscription -> bool,
                      now: int, defaultMaxFailures: int, retryPeriod: int, fromPollingQueue: bool)
    returns (failed: set<Subscription>, failedOrder: seq<Subscription>)
    requires !event.deleted
    modifies event
    ensures failed == set s | s in sent && allowed(s) && !delivered(s)
    ensures SetOf(failedOrder) == failed && NoDup(failedOrder)
    ensures event.deleted ==> failed == {}
    ensures !event.deleted ==> forall s :: s in failed ==> KeyOf(s) in event.failedCallbacks
    ensures Updated(event, old(event.Snapshot()), more, failedOrder, now, defaultMaxFailures, retryPeriod)
    ensures event.deleted || event.totallyFailed ==> event.tasks == old(event.tasks)
    ensures !event.deleted && !event.totallyFailed ==>
              event.tasks == old(event.tasks)
                             + [DeliveryTask(EnqueueTarget(event.deliveryMode, fromPollingQueue), event.lastModified)]
  {
    var attempted;
    attempted, failed := DeliveryOutcome(sent, allowed, delivered);
    failedOrder := SetToSeq(failed);
    FailedKeysKept(failed, failedOrder, event.failedCallbacks);
    event.Update(more, failedOrder, now, defaultMaxFailures, retryPeriod, fromPollingQueue);
  }

  /** The event's state after update() from the progress `mid` with the
      failed subscriptions in `failedOrder`: deleted exactly when
      AfterUpdate says so, else holding AfterUpdate's progress. */
  ghost predicate Updated(event: EventToDeliver, mid: Progress, more: bool, failedOrder: seq<Subscription>, now: int,
                          defaultMaxFailures: int, retryPeriod: int)
    reads event
  {
    var r := AfterUpdate(mid, more, KeysOf(SortByHash(failedOrder)), now,
                         EffectiveMax(event.maxFailures, defaultMaxFailures), retryPeriod);
    && (event.deleted <==> r.None?)
    && (r.Some? ==> event.Snapshot() == r.value)
  }

  /** The keys update() appends cover every failed subscription. */
  lemma FailedKeysKept(failed: set<Subscription>, failedList: seq<Subscription>, before: seq<SubKey>)
    requires SetOf(failedList) == failed
    ensures forall s :: s in failed ==> KeyOf(s) in before + KeysOf(SortByHash(failedList))
    ensures before + KeysOf(SortByHash(failedList)) == [] ==> failed == {}
  {
    var sorted := SortByHash(failedList);
    forall s | s in failed ensures KeyOf(s) in before + KeysOf(sorted) {
      assert s in multiset(sorted);
      var i :| 0 <= i < |sorted| && sorted[i] == s;
      assert (before + KeysOf(sorted))[|before| + i] == KeyOf(s);
    }
    if before + KeysOf(sorted) == [] {
      assert |failedList| == 0 by {
        assert |multiset(failedList)| == |multiset(sorted)|;
      }
    }
  }
}
