/** FeedToFetch: the work items of the feed-pulls queue, one per topic. A
    publish creates them in the in-memory fork-join queue; a failed fetch
    writes the item to the datastore with a later eta and queues a retry;
    a successful fetch deletes it unless a newer publish replaced it. The
    datastore is a map keyed by topic (the entity's key name is the hash of
    the topic URL); the queues are append-only logs. */
module Fetching {
  import opened Common
  import Config

  /** A feed with new data to be pulled (times in seconds). */
  datatype FeedToFetch = FeedToFetch(
    topic: string, eta: int, fetchingFailures: nat, totallyFailed: bool,
    sources: seq<(string, string)>)

  /** A task of the feed-pulls-retries queue. */
  datatype RetryTask = RetryTask(topic: string, eta: int)

  /** A new work item: not failed yet, due at creation time, carrying the
      publish's sources (stored as parallel key and value lists, here as
      pairs). */
  predicate IsNewWork(w: FeedToFetch, sources: seq<(string, string)>, now: int)
  {
    && w.eta == now && w.fetchingFailures == 0 && !w.totallyFailed
    && w.sources == sources
  }

  function Topics(ws: seq<FeedToFetch>): (r: seq<string>)
    ensures |r| == |ws| && forall i :: 0 <= i < |ws| ==> r[i] == ws[i].topic
  {
    if ws == [] then [] else [ws[0].topic] + Topics(ws[1..])
  }

  /** The list FeedToFetch.insert builds: one new item per distinct topic,
      in the order the set of topics is iterated. Pinging a topic several
      times in one request therefore schedules it once. */
  method WorkItems(topicList: seq<string>, sources: seq<(string, string)>, now: int)
    returns (r: seq<FeedToFetch>)
    ensures NoDup(Topics(r)) && SetOf(Topics(r)) == SetOf(topicList)
    ensures |r| == |SetOf(topicList)|
    ensures forall i :: 0 <= i < |r| ==> IsNewWork(r[i], sources, now)
  {
    var ts := SetToSeq(SetOf(topicList));
    r := [];
    var i := 0;
    while i < |ts|
      invariant 0 <= i <= |ts|
      invariant Topics(r) == ts[..i]
      invariant forall j :: 0 <= j < |r| ==> IsNewWork(r[j], sources, now)
    {
      r := r + [FeedToFetch(ts[i], now, 0, false, sources)];
      assert Topics(r) == ts[..i + 1] by {
        assert forall j :: 0 <= j < |r| ==> Topics(r)[j] == ts[..i + 1][j];
      }
      i := i + 1;
    }
    assert ts[..i] == ts;
  }

  /** The items of a batch put, by topic: one entry per topic of the
      list, each holding an item of that topic (the last one listed). */
  function ByTopic(ws: seq<FeedToFetch>): (r: map<string, FeedToFetch>)
    ensures r.Keys == SetOf(Topics(ws))
    ensures forall t :: t in r ==> r[t].topic == t
  {
    if ws == [] then map[]
    else
      TopicsCons(ws);
      ByTopic(ws[1..])[ws[0].topic := ws[0]]
  }

  /** In a list without repeated topics every item is stored under its
      own topic, so a batch put loses none of them. */
  lemma {:induction false} ByTopicStoresEach(ws: seq<FeedToFetch>)
    requires NoDup(Topics(ws))
    ensures forall i :: 0 <= i < |ws| ==> ws[i].topic in ByTopic(ws) && ByTopic(ws)[ws[i].topic] == ws[i]
  {
    if ws != [] {
      TopicsCons(ws);
      ByTopicStoresEach(ws[1..]);
      forall i | 1 <= i < |ws| ensures ByTopic(ws)[ws[i].topic] == ws[i] {
        assert ws[1..][i - 1] == ws[i];
      }
    }
  }

  lemma TopicsCons(ws: seq<FeedToFetch>)
    requires ws != []
    ensures SetOf(Topics(ws)) == {ws[0].topic} + SetOf(Topics(ws[1..]))
    ensures NoDup(Topics(ws)) ==> NoDup(Topics(ws[1..])) && forall i :: 1 <= i < |ws| ==> ws[i].topic != ws[0].topic
  {
    var t, rest := Topics(ws), Topics(ws[1..]);
    assert t == [ws[0].topic] + rest;
    assert SetOf(t) == {ws[0].topic} + SetOf(rest);
    if NoDup(t) {
      NoDupTail(ws, t, rest);
    }
  }

  lemma NoDupTail(ws: seq<FeedToFetch>, t: seq<string>, rest: seq<string>)
    requires ws != [] && t == Topics(ws) && rest == Topics(ws[1..]) && t == [ws[0].topic] + rest
    requires NoDup(t)
    ensures NoDup(rest) && forall i :: 1 <= i < |ws| ==> ws[i].topic != ws[0].topic
  {
    forall i, j | 0 <= i < j < |rest| ensures rest[i] != rest[j] {
      assert t[i + 1] == rest[i] && t[j + 1] == rest[j];
    }
    forall i | 1 <= i < |ws| ensures ws[i].topic != ws[0].topic {
      assert t[0] == ws[0].topic && t[i] == ws[i].topic;
    }
  }

  /** fetch_failed's new record: below the cap the next pull is scheduled
      retry_period * 2^failures seconds from now and the failure counted; at
      the cap the item is marked totally failed and nothing else changes. */
  function FetchFailedOutcome(w: FeedToFetch, maxFailures: int, retryPeriod: int, now: int): (r: FeedToFetch)
    ensures r.topic == w.topic && r.sources == w.sources
    ensures w.fetchingFailures >= maxFailures ==> r == w.(totallyFailed := true)
    ensures w.fetchingFailures < maxFailures ==>
              && r.fetchingFailures == w.fetchingFailures + 1 && r.totallyFailed == w.totallyFailed
              && r.eta == now + RetryDelay(retryPeriod, w.fetchingFailures)
  {
    if w.fetchingFailures >= maxFailures then w.(totallyFailed := true)
    else w.(eta := now + retryPeriod * Pow2(w.fetchingFailures), fetchingFailures := w.fetchingFailures + 1)
  }

  /** The item after k failed pulls, each reported `now`. */
  function RepeatFetchFailures(w: FeedToFetch, maxFailures: int, retryPeriod: int, k: nat, now: int): FeedToFetch
  {
    if k == 0 then w
    else FetchFailedOutcome(RepeatFetchFailures(w, maxFailures, retryPeriod, k - 1, now), maxFailures, retryPeriod, now)
  }

  /** From a new item, each of the first max_failures failed pulls is
      retried, the k-th one retry_period * 2^(k-1) seconds later; the next
      failure marks the item totally failed. */
  lemma {:induction false} FetchFailuresGiveUp(w: FeedToFetch, maxFailures: nat, retryPeriod: int, k: nat, now: int)
    requires w.fetchingFailures == 0 && !w.totallyFailed
    requires k <= maxFailures + 1
    ensures var after := RepeatFetchFailures(w, maxFailures, retryPeriod, k, now);
      && after.fetchingFailures == (if k <= maxFailures then k else maxFailures)
      && (after.totallyFailed <==> k == maxFailures + 1)
      && (0 < k <= maxFailures ==> after.eta == now + RetryDelay(retryPeriod, k - 1))
  {
    if k > 0 { FetchFailuresGiveUp(w, maxFailures, retryPeriod, k - 1, now); }
  }

  /** The stored items after done(): the item is deleted only when its eta
      is still the one the worker saw. */
  function AfterDone(work: map<string, FeedToFetch>, w: FeedToFetch): (r: map<string, FeedToFetch>)
    ensures w.topic in work && work[w.topic].eta == w.eta ==> r == work - {w.topic}
    ensures !(w.topic in work && work[w.topic].eta == w.eta) ==> r == work
  {
    if w.topic in work && work[w.topic].eta == w.eta then work - {w.topic} else work
  }

  /** A newer publish that rescheduled the item survives the older pull's
      done(); otherwise the item is gone. */
  lemma DoneKeepsRescheduled(work: map<string, FeedToFetch>, w: FeedToFetch, newer: FeedToFetch)
    requires newer.topic == w.topic && newer.eta != w.eta
    ensures AfterDone(work[w.topic := newer], w) == work[w.topic := newer]
    ensures w.topic !in AfterDone(work[w.topic := w], w)
  {
  }

  /** Writing a batch keeps every stored item under its own topic. */
  lemma KeyedByTopic(work: map<string, FeedToFetch>, ws: seq<FeedToFetch>)
    requires forall t :: t in work ==> work[t].topic == t
    ensures forall t :: t in work + ByTopic(ws) ==> (work + ByTopic(ws))[t].topic == t
  {
  }

  /** The FeedToFetch entities of the datastore and the queues that carry
      work items. */
  class FetchStore {
    /** Stored work items by topic. */
    var work: map<string, FeedToFetch>
    /** Batches handed to the in-memory fork-join queue, oldest first. */
    ghost var batches: seq<seq<FeedToFetch>>
    /** Retry tasks enqueued so far, oldest first. */
    ghost var retries: seq<RetryTask>

    ghost predicate Valid()
      reads this
    {
      forall t :: t in work ==> work[t].topic == t
    }

    constructor()
      ensures Valid() && work == map[] && batches == [] && retries == []
    {
      work := map[];
      batches := [];
      retries := [];
    }

    /** FeedToFetch.insert: nothing for an empty list; otherwise one new item
      per distinct topic, handed to the fork-join queue when memoryOnly
      and written to the datastore (overwriting older items) otherwise. */
    method Insert(topicList: seq<string>, sources: seq<(string, string)>, memoryOnly: bool, now: int)
      returns (r: seq<FeedToFetch>)
      requires Valid()
      modifies this
      ensures Valid() && retries == old(retries)
      ensures topicList == [] ==> r == [] && work == old(work) && batches == old(batches)
      ensures topicList != [] ==> NoDup(Topics(r)) && SetOf(Topics(r)) == SetOf(topicList)
      ensures forall i :: 0 <= i < |r| ==> IsNewWork(r[i], sources, now)
      ensures memoryOnly && topicList != [] ==> batches == old(batches) + [r] && work == old(work)
      ensures !memoryOnly ==> batches == old(batches)
      ensures !memoryOnly ==> work == old(work) + ByTopic(r)
    {
      if topicList == [] {
        return [];
      }
      r := WorkItems(topicList, sources, now);
      if memoryOnly {
        batches := batches + [r];
      } else {
        Put(r);
      }
    }

    /** A batch put of work items, each under its own topic. */
    method Put(ws: seq<FeedToFetch>)
      requires Valid()
      modifies this
      ensures Valid() && batches == old(batches) && retries == old(retries)
      ensures work == old(work) + ByTopic(ws)
    {
      KeyedByTopic(work, ws);
      work := work + ByTopic(ws);
    }

    /** FeedToFetch.fetch_failed: writes the outcome back and, below the cap,
      queues a retry at the new eta. When the transaction fails the error
      is logged and nothing changes. */
    method FetchFailed(w: FeedToFetch, maxFailures: int, retryPeriod: int, now: int, txnFails: bool)
      requires Valid()
      modifies this
      ensures Valid() && batches == old(batches)
      ensures txnFails ==> work == old(work) && retries == old(retries)
      ensures !txnFails ==>
        var updated := FetchFailedOutcome(w, maxFailures, retryPeriod, now);
        && work == old(work)[w.topic := updated]
        && retries == old(retries) + (if w.fetchingFailures < maxFailures then [RetryTask(w.topic, updated.eta)] else [])
    {
      if txnFails {
        return;
      }
      var updated := FetchFailedOutcome(w, maxFailures, retryPeriod, now);
      if w.fetchingFailures < maxFailures {
        retries := retries + [RetryTask(w.topic, updated.eta)];
      }
      work := work[w.topic := updated];
    }

    /** FeedToFetch.done: deletes the stored item only when its eta is the
      one this worker saw (no newer publish rescheduled it). Returns
      whether it was deleted. */
    method Done(w: FeedToFetch) returns (deleted: bool)
      requires Valid()
      modifies this
      ensures Valid() && batches == old(batches) && retries == old(retries)
      ensures deleted <==> w.topic in old(work) && old(work)[w.topic].eta == w.eta
      ensures work == AfterDone(old(work), w)
    {
      deleted := w.topic in work && work[w.topic].eta == w.eta;
      if deleted {
        work := work - {w.topic};
      }
    }
  }
}
