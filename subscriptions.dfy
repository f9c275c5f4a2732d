/** The Subscription entity: one record per (callback, topic) pair, moving
    between the states not_verified, verified and to_delete. The datastore is
    a map keyed by (callback, topic); each transaction is one atomic update of
    that map; confirmation tasks go to an append-only log. */
module Subscriptions {
  import opened Common
  import Config

  datatype State = NotVerified | Verified | ToDelete

  /** The (callback, topic) pair the entity's key name is derived from. */
  datatype SubKey = SubKey(callback: string, topic: string)

  /** The stored fields of a subscription (times in seconds). */
  datatype Subscription = Subscription(
    callback: string, callbackHash: string,
    topic: string, topicHash: string,
    leaseSeconds: int, expirationTime: int, eta: int,
    confirmFailures: nat, verifyToken: string, secret: string,
    hashFunc: string, state: State)

  /** A task of the subscriptions (or, for automatic reconfirmation, the
      polling) queue asking for a confirmation that moves the subscription
      to `nextState`, not to run before `eta`. */
  datatype ConfirmTask = ConfirmTask(
    key: SubKey, nextState: State, verifyToken: string, secret: string,
    autoReconfirm: bool, queue: string, eta: int)

  function KeyOf(s: Subscription): SubKey
  {
    SubKey(s.callback, s.topic)
  }

  /** A record is stored under its own key with the hashes of its URLs. */
  predicate WellFormed(hash: string -> string, k: SubKey, s: Subscription)
  {
    && s.callback == k.callback && s.topic == k.topic
    && s.callbackHash == hash(s.callback) && s.topicHash == hash(s.topic)
  }

  predicate WellFormedStore(hash: string -> string, subs: map<SubKey, Subscription>)
  {
    forall k :: k in subs ==> WellFormed(hash, k, subs[k])
  }

  /** The record a first request creates; the datastore sets eta to the
      creation time. */
  function Fresh(hash: string -> string, callback: string, topic: string, verifyToken: string,
                 secret: string, hashFunc: string, leaseSeconds: int, expiration: int, now: int)
    : (s: Subscription)
    ensures WellFormed(hash, SubKey(callback, topic), s)
    ensures s.state == NotVerified && s.confirmFailures == 0 && s.eta == now
  {
    Subscription(callback, hash(callback), topic, hash(topic), leaseSeconds, expiration, now,
                 0, verifyToken, secret, hashFunc, NotVerified)
  }

  /** Subscription.insert: the record ends up verified, its failures cleared,
      expiring lease_seconds from now and holding the new token and secret;
      an existing record keeps its stored lease_seconds and every other key
      keeps its record. */
  function AfterInsert(hash: string -> string, subs: map<SubKey, Subscription>, callback: string,
                       topic: string, verifyToken: string, secret: string, hashFunc: string,
                       leaseSeconds: int, now: int): (r: map<SubKey, Subscription>)
    ensures var k := SubKey(callback, topic);
      && k in r && r.Keys == subs.Keys + {k}
      && r[k].state == Verified && r[k].confirmFailures == 0
      && r[k].expirationTime == now + leaseSeconds
      && r[k].verifyToken == verifyToken && r[k].secret == secret
      && r[k].leaseSeconds == (if k in subs then subs[k].leaseSeconds else leaseSeconds)
      && (forall j :: j in subs && j != k ==> r[j] == subs[j])
    ensures WellFormedStore(hash, subs) ==> WellFormedStore(hash, r)
  {
    var k := SubKey(callback, topic);
    var base := if k in subs then subs[k]
                else Fresh(hash, callback, topic, verifyToken, secret, hashFunc, leaseSeconds, now, now);
    subs[k := base.(state := Verified, expirationTime := now + leaseSeconds, confirmFailures := 0,
                    verifyToken := verifyToken, secret := secret)]
  }

  /** Subscription.request_insert: a missing record is created not verified,
      expiring lease_seconds from now; an existing one only has its failures
      cleared, keeping its state, token, secret and lease until the
      confirmation succeeds. */
  function AfterRequestInsert(hash: string -> string, subs: map<SubKey, Subscription>,
                              callback: string, topic: string, verifyToken: string, secret: string,
                              hashFunc: string, leaseSeconds: int, now: int)
    : (r: map<SubKey, Subscription>)
    ensures var k := SubKey(callback, topic);
      && k in r && r.Keys == subs.Keys + {k}
      && r[k].confirmFailures == 0
      && (k in subs ==> r[k] == subs[k].(confirmFailures := 0))
      && (k !in subs ==> r[k].state == NotVerified && r[k].expirationTime == now + leaseSeconds
                         && r[k].verifyToken == verifyToken && r[k].leaseSeconds == leaseSeconds)
      && (forall j :: j in subs && j != k ==> r[j] == subs[j])
    ensures WellFormedStore(hash, subs) ==> WellFormedStore(hash, r)
  {
    var k := SubKey(callback, topic);
    var base := if k in subs then subs[k]
                else Fresh(hash, callback, topic, verifyToken, secret, hashFunc, leaseSeconds,
                           now + leaseSeconds, now);
    subs[k := base.(confirmFailures := 0)]
  }

  /** Subscription.archive: the record, when there is one, is marked
      to_delete with its failures cleared; nothing else changes. */
  function AfterArchive(subs: map<SubKey, Subscription>, k: SubKey): (r: map<SubKey, Subscription>)
    ensures r.Keys == subs.Keys
    ensures k in subs ==> r[k] == subs[k].(state := ToDelete, confirmFailures := 0)
    ensures k !in subs ==> r == subs
    ensures forall j :: j in subs && j != k ==> r[j] == subs[j]
  {
    if k in subs then subs[k := subs[k].(state := ToDelete, confirmFailures := 0)] else subs
  }

  /** Subscription.confirm_failed: below the failure cap the next attempt is
      scheduled retry_period * 2^failures seconds from now and the failure
      counted (retry is True); at the cap nothing is written (retry is
      False). */
  function ConfirmFailedOutcome(sub: Subscription, maxFailures: int, retryPeriod: int, now: int)
    : (r: (bool, Subscription))
    ensures r.0 <==> sub.confirmFailures < maxFailures
    ensures r.0 ==> r.1 == sub.(eta := now + RetryDelay(retryPeriod, sub.confirmFailures),
                                confirmFailures := sub.confirmFailures + 1)
    ensures !r.0 ==> r.1 == sub
  {
    if sub.confirmFailures >= maxFailures then (false, sub)
    else (true, sub.(eta := now + retryPeriod * Pow2(sub.confirmFailures),
                     confirmFailures := sub.confirmFailures + 1))
  }

  /** The queue a confirmation task goes to. */
  function ConfirmQueue(autoReconfirm: bool): string
  {
    if autoReconfirm then Config.POLLING_QUEUE else Config.SUBSCRIPTION_QUEUE
  }

  /** The record after k failed confirmations, each reported `now`. */
  function RepeatFailures(sub: Subscription, maxFailures: int, retryPeriod: int, k: nat, now: int)
    : Subscription
  {
    if k == 0 then sub
    else ConfirmFailedOutcome(RepeatFailures(sub, maxFailures, retryPeriod, k - 1, now), maxFailures,
                              retryPeriod, now).1
  }

  /** From a record without failures, each of the first max_failures failed
      confirmations is retried, the k-th one retry_period * 2^(k-1) seconds
      later; the next failure gives up. */
  lemma {:induction false} ConfirmFailuresGiveUp(sub: Subscription, maxFailures: nat, retryPeriod: int,
                                                 k: nat, now: int)
    requires sub.confirmFailures == 0 && k <= maxFailures
    ensures RepeatFailures(sub, maxFailures, retryPeriod, k, now).confirmFailures == k
    ensures k > 0 ==> RepeatFailures(sub, maxFailures, retryPeriod, k, now).eta
                      == now + RetryDelay(retryPeriod, k - 1)
    ensures var next := RepeatFailures(sub, maxFailures, retryPeriod, k, now);
            ConfirmFailedOutcome(next, maxFailures, retryPeriod, now).0 <==> k < maxFailures
  {
    if k > 0 { ConfirmFailuresGiveUp(sub, maxFailures, retryPeriod, k - 1, now); }
  }

  // ---------------------------------------------------------------------------
  // Hash-ordered pages of verified subscribers

  /** The verified subscriptions of a topic whose callback hash is at least
      `fromHash`. */
  function From(c: set<Subscription>, fromHash: string): set<Subscription>
  {
    set s | s in c && LexLe(fromHash, s.callbackHash)
  }

  predicate SortedByHash(r: seq<Subscription>)
  {
    forall i, j :: 0 <= i < j < |r| ==> LexLe(r[i].callbackHash, r[j].callbackHash)
  }

  predicate Distinct(r: seq<Subscription>)
  {
    forall i, j :: 0 <= i < j < |r| ==> r[i] != r[j]
  }

  predicate DistinctHashes(c: set<Subscription>)
  {
    forall x, y :: x in c && y in c && x.callbackHash == y.callbackHash ==> x == y
  }

  /** query.fetch(count) on a query ordered by callback_hash: the first
      min(count, |c|) members of c in ascending hash order. */
  predicate IsPage(r: seq<Subscription>, c: set<Subscription>, count: nat)
  {
    && |r| == (if count < |c| then count else |c|)
    && Distinct(r)
    && (forall i :: 0 <= i < |r| ==> r[i] in c)
    && SortedByHash(r)
    && (forall x, i :: x in c && x !in r && 0 <= i < |r| ==> LexLe(r[i].callbackHash, x.callbackHash))
  }

  /** Fetching one page of count+1 records and starting the next page at the
      last of them hands out the first count records and then exactly the
      rest: the next page neither skips nor repeats a subscriber. */
  lemma NextPageNeitherSkipsNorRepeats(c: set<Subscription>, h0: string, r: seq<Subscription>, chunk: nat)
    requires DistinctHashes(c)
    requires IsPage(r, From(c, h0), chunk + 1) && |r| == chunk + 1
    ensures From(c, r[chunk].callbackHash) == From(c, h0) - (set i | 0 <= i < chunk :: r[i])
  {
    var last := r[chunk];
    var sent := set i | 0 <= i < chunk :: r[i];
    forall x | x in From(c, h0) - sent ensures x in From(c, last.callbackHash) {
      if x == last {
        LexLeReflexive(last.callbackHash);
      }
    }
    forall x | x in From(c, last.callbackHash) ensures x in From(c, h0) - sent {
      LexLeTransitive(h0, last.callbackHash, x.callbackHash);
      if x in sent {
        var i :| 0 <= i < chunk && r[i] == x;
        LexLeAntisymmetric(x.callbackHash, last.callbackHash);
      }
    }
  }

  /** The datastore: every subscription by (callback, topic). */
  class SubscriptionStore {
    /** The hash applied to callback and topic URLs (sha1_hash). */
    const hash: string -> string
    var subs: map<SubKey, Subscription>
    /** Confirmation tasks enqueued so far, oldest first. */
    ghost var tasks: seq<ConfirmTask>

    ghost predicate Valid()
      reads this
    {
      WellFormedStore(hash, subs)
    }

    constructor(hash: string -> string)
      ensures this.hash == hash && subs == map[] && tasks == [] && Valid()
    {
      this.hash := hash;
      subs := map[];
      tasks := [];
    }

    /** Subscription.insert; returns whether the record is new. */
    method Insert(callback: string, topic: string, verifyToken: string, secret: string,
                  hashFunc: string, leaseSeconds: int, now: int) returns (isNew: bool)
      requires Valid()
      modifies this
      ensures Valid()
      ensures isNew <==> SubKey(callback, topic) !in old(subs)
      ensures subs == AfterInsert(hash, old(subs), callback, topic, verifyToken, secret, hashFunc,
                                  leaseSeconds, now)
      ensures tasks == old(tasks)
    {
      isNew := SubKey(callback, topic) !in subs;
      subs := AfterInsert(hash, subs, callback, topic, verifyToken, secret, hashFunc, leaseSeconds, now);
    }

    /** Subscription.request_insert: records the request and enqueues the
      confirmation that would make it verified. */
    method RequestInsert(callback: string, topic: string, verifyToken: string, secret: string,
                         autoReconfirm: bool, hashFunc: string, leaseSeconds: int, now: int)
      returns (isNew: bool)
      requires Valid()
      modifies this
      ensures Valid()
      ensures isNew <==> SubKey(callback, topic) !in old(subs)
      ensures subs == AfterRequestInsert(hash, old(subs), callback, topic, verifyToken, secret,
                                         hashFunc, leaseSeconds, now)
      ensures var k := SubKey(callback, topic);
        tasks == old(tasks) + [ConfirmTask(k, Verified, verifyToken, secret, autoReconfirm,
                                           ConfirmQueue(autoReconfirm), subs[k].eta)]
    {
      var k := SubKey(callback, topic);
      isNew := k !in subs;
      subs := AfterRequestInsert(hash, subs, callback, topic, verifyToken, secret, hashFunc,
                                 leaseSeconds, now);
      tasks := tasks + [ConfirmTask(k, Verified, verifyToken, secret, autoReconfirm,
                                    ConfirmQueue(autoReconfirm), subs[k].eta)];
    }

    /** Subscription.remove; returns whether there was a record to remove. */
    method Remove(callback: string, topic: string) returns (existed: bool)
      requires Valid()
      modifies this
      ensures Valid()
      ensures existed <==> SubKey(callback, topic) in old(subs)
      ensures subs == old(subs) - {SubKey(callback, topic)}
      ensures tasks == old(tasks)
    {
      var k := SubKey(callback, topic);
      existed := k in subs;
      if existed {
        subs := subs - {k};
      }
    }

    /** Subscription.request_remove: an existing record has its failures
      cleared and a confirmation towards to_delete is enqueued; a missing
      one is left missing. Returns whether the record exists. */
    method RequestRemove(callback: string, topic: string, verifyToken: string)
      returns (existed: bool)
      requires Valid()
      modifies this
      ensures Valid()
      ensures var k := SubKey(callback, topic);
        && (existed <==> k in old(subs))
        && (existed ==> subs == old(subs)[k := old(subs)[k].(confirmFailures := 0)]
                        && tasks == old(tasks) + [ConfirmTask(k, ToDelete, verifyToken, "", false,
                                                              Config.SUBSCRIPTION_QUEUE, subs[k].eta)])
        && (!existed ==> subs == old(subs) && tasks == old(tasks))
    {
      var k := SubKey(callback, topic);
      existed := k in subs;
      if existed {
        subs := subs[k := subs[k].(confirmFailures := 0)];
        tasks := tasks + [ConfirmTask(k, ToDelete, verifyToken, "", false, Config.SUBSCRIPTION_QUEUE,
                                      subs[k].eta)];
      }
    }

    /** Subscription.archive. */
    method Archive(callback: string, topic: string)
      requires Valid()
      modifies this
      ensures Valid()
      ensures subs == AfterArchive(old(subs), SubKey(callback, topic))
      ensures tasks == old(tasks)
    {
      subs := AfterArchive(subs, SubKey(callback, topic));
    }

    /** Subscription.confirm_failed on the in-memory record `sub`: below the
      cap the updated record is written back and the confirmation enqueued
      again; at the cap nothing happens. Returns whether to retry. */
    method ConfirmFailed(sub: Subscription, nextState: State, verifyToken: string, autoReconfirm: bool,
                         secret: string, maxFailures: int, retryPeriod: int, now: int)
      returns (retry: bool)
      requires Valid() && WellFormed(hash, KeyOf(sub), sub)
      modifies this
      ensures Valid()
      ensures var (r, updated) := ConfirmFailedOutcome(sub, maxFailures, retryPeriod, now);
        && retry == r
        && (retry ==> subs == old(subs)[KeyOf(sub) := updated]
                      && tasks == old(tasks) + [ConfirmTask(KeyOf(sub), nextState, verifyToken, secret,
                                                            autoReconfirm, ConfirmQueue(autoReconfirm),
                                                            updated.eta)])
        && (!retry ==> subs == old(subs) && tasks == old(tasks))
    {
      var (r, updated) := ConfirmFailedOutcome(sub, maxFailures, retryPeriod, now);
      retry := r;
      if retry {
        subs := subs[KeyOf(sub) := updated];
        tasks := tasks + [ConfirmTask(KeyOf(sub), nextState, verifyToken, secret, autoReconfirm,
                                      ConfirmQueue(autoReconfirm), updated.eta)];
      }
    }

    /** The verified subscriptions of a topic. */
    function VerifiedOf(topic: string): set<Subscription>
      reads this
    {
      set s | s in subs.Values && s.topicHash == hash(topic) && s.state == Verified
    }

    /** The records a get_subscribers query selects: the verified
      subscriptions of the topic, from the hash of `startingAt` on when it
      is not empty. */
    function Candidates(topic: string, startingAt: string): set<Subscription>
      reads this
    {
      if startingAt == "" then VerifiedOf(topic) else From(VerifiedOf(topic), hash(startingAt))
    }

    /** Subscription.has_subscribers. */
    function HasSubscribers(topic: string): (r: bool)
      reads this
      ensures r <==> exists k :: k in subs && subs[k].topicHash == hash(topic) && subs[k].state == Verified
    {
      assert VerifiedOf(topic) != {} <==>
             exists k :: k in subs && subs[k].topicHash == hash(topic) && subs[k].state == Verified by {
        if VerifiedOf(topic) != {} {
          var s :| s in VerifiedOf(topic);
          var k :| k in subs && subs[k] == s;
        }
        if exists k :: k in subs && subs[k].topicHash == hash(topic) && subs[k].state == Verified {
          var k :| k in subs && subs[k].topicHash == hash(topic) && subs[k].state == Verified;
          assert subs[k] in VerifiedOf(topic);
        }
      }
      VerifiedOf(topic) != {}
    }

    /** A topic has subscribers exactly when the first page of one is not
      empty. */
    lemma HasSubscribersIffFirstPage(topic: string, r: seq<Subscription>)
      requires IsPage(r, Candidates(topic, ""), 1)
      ensures HasSubscribers(topic) <==> |r| == 1
    {
      if HasSubscribers(topic) {
        var s :| s in VerifiedOf(topic);
        assert |VerifiedOf(topic)| >= 1;
      }
    }

    /** Subscription.get_subscribers: at most `count` verified subscriptions
      of the topic, in ascending callback hash order, starting at the hash
      of `startingAt` (included) unless it is empty. */
    method GetSubscribers(topic: string, count: nat, startingAt: string) returns (r: seq<Subscription>)
      ensures IsPage(r, Candidates(topic, startingAt), count)
    {
      var remaining := Candidates(topic, startingAt);
      ghost var all := remaining;
      r := [];
      while |r| < count && remaining != {}
        invariant |r| <= count && PagePrefix(r, remaining, all)
        decreases |remaining|
      {
        var m := MinByHash(remaining);
        PageStep(r, remaining, all, m);
        r := r + [m];
        remaining := remaining - {m};
      }
      PageDone(r, remaining, all, count);
    }
  }

  /** The loop state of get_subscribers: `r` holds the least members of
      `all` in ascending hash order, `remaining` the others. */
  ghost predicate PagePrefix(r: seq<Subscription>, remaining: set<Subscription>, all: set<Subscription>)
  {
    && remaining <= all
    && (forall i :: 0 <= i < |r| ==> r[i] in all && r[i] !in remaining)
    && (forall x :: x in all ==> x in remaining || x in r)
    && |r| + |remaining| == |all|
    && Distinct(r) && SortedByHash(r)
    && (forall x, i :: x in remaining && 0 <= i < |r| ==> LexLe(r[i].callbackHash, x.callbackHash))
  }

  lemma PageStep(r: seq<Subscription>, remaining: set<Subscription>, all: set<Subscription>, m: Subscription)
    requires PagePrefix(r, remaining, all)
    requires m in remaining && forall x :: x in remaining ==> LexLe(m.callbackHash, x.callbackHash)
    ensures PagePrefix(r + [m], remaining - {m}, all)
  {
    var r', rem' := r + [m], remaining - {m};
    assert |rem'| == |remaining| - 1;
    forall i, j | 0 <= i < j < |r'| ensures r'[i] != r'[j] && LexLe(r'[i].callbackHash, r'[j].callbackHash) {
      if j == |r| {
        assert r'[j] == m && r'[i] == r[i];
      }
    }
    forall x | x in all ensures x in rem' || x in r' {
      if x == m { assert r'[|r|] == m; }
    }
  }

  lemma PageDone(r: seq<Subscription>, remaining: set<Subscription>, all: set<Subscription>, count: nat)
    requires PagePrefix(r, remaining, all) && |r| <= count
    requires !(|r| < count && remaining != {})
    ensures IsPage(r, all, count)
  {
    forall x, i | x in all && x !in r && 0 <= i < |r| ensures LexLe(r[i].callbackHash, x.callbackHash) {
      assert x in remaining;
    }
    if remaining != {} {
      assert |r| == count;
    } else {
      assert |r| == |all|;
    }
  }

  /** A record with the least callback hash of a non-empty set. */
  method MinByHash(c: set<Subscription>) returns (m: Subscription)
    requires c != {}
    ensures m in c && forall x :: x in c ==> LexLe(m.callbackHash, x.callbackHash)
  {
    m :| m in c;
    LexLeReflexive(m.callbackHash);
    var rest := c - {m};
    while rest != {}
      invariant m in c && rest <= c
      invariant forall x :: x in c && x !in rest ==> LexLe(m.callbackHash, x.callbackHash)
      decreases |rest|
    {
      var x :| x in rest;
      if !LexLe(m.callbackHash, x.callbackHash) {
        LexLeTotal(m.callbackHash, x.callbackHash);
        forall y | y in c && y !in rest ensures LexLe(x.callbackHash, y.callbackHash) {
          LexLeTransitive(x.callbackHash, m.callbackHash, y.callbackHash);
        }
        LexLeReflexive(x.callbackHash);
        m := x;
      }
      rest := rest - {x};
    }
  }
}
