/** Known feeds and feed identities: the topic URLs someone subscribed to, the
    identity (feed id) found in each, and for each identity the list of topic
    URLs that serve the same feed. A publish of one alias is expanded to all
    of them. */
module Identity {
  import opened Common
  import Config

  /** KnownFeed: a topic with subscribers and, once discovered, its feed id. */
  datatype KnownFeed = KnownFeed(topic: string, feedId: Option<string>, updateTime: int)

  /** KnownFeedIdentity: the aliases of one feed id, in insertion order. */
  datatype KnownFeedIdentity = KnownFeedIdentity(feedId: string, topics: seq<string>, lastUpdate: int)

  /** A feed id counts when, stripped of white space, it is not empty. */
  predicate HasFeedId(f: KnownFeed)
  {
    f.feedId.Some? && Strip(f.feedId.value) != ""
  }

  /** KnownFeedIdentity.update's record: the topic is appended unless it is
      already listed. */
  function AddAlias(ids: map<string, KnownFeedIdentity>, feedId: string, topic: string, now: int)
    : (r: KnownFeedIdentity)
    ensures r.feedId == feedId && r.lastUpdate == now
    ensures SetOf(r.topics) == (if feedId in ids then SetOf(ids[feedId].topics) else {}) + {topic}
    ensures feedId in ids ==> ids[feedId].topics <= r.topics
    ensures feedId in ids && NoDup(ids[feedId].topics) ==> NoDup(r.topics)
    ensures feedId !in ids ==> r.topics == [topic]
  {
    var topics := if feedId in ids then ids[feedId].topics else [];
    var topics' := if topic in topics then topics else topics + [topic];
    assert SetOf(topics + [topic]) == SetOf(topics) + {topic};
    KnownFeedIdentity(feedId, topics', now)
  }

  /** KnownFeedIdentity.remove's effect on the identity records: the topic
      leaves the feed id's aliases, a record left without aliases is
      deleted, and every other record stays as it was. */
  function AfterRemoval(ids: map<string, KnownFeedIdentity>, feedId: string, topic: string, now: int)
    : (r: map<string, KnownFeedIdentity>)
    ensures forall f :: f != feedId ==> (f in r <==> f in ids) && (f in r ==> r[f] == ids[f])
    ensures feedId in r ==> feedId in ids && SetOf(r[feedId].topics) <= SetOf(ids[feedId].topics)
    ensures feedId in ids && NoDup(ids[feedId].topics) && feedId in r ==>
              topic !in r[feedId].topics && SetOf(r[feedId].topics) == SetOf(ids[feedId].topics) - {topic}
    ensures feedId in ids && topic !in ids[feedId].topics ==> r == ids
  {
    if feedId !in ids then ids
    else if topic !in ids[feedId].topics then
      assert SetOf(ids[feedId].topics) == SetOf(ids[feedId].topics) - {topic};
      ids
    else
      var rest := RemoveFirst(ids[feedId].topics, topic);
      if rest == [] then ids - {feedId} else ids[feedId := KnownFeedIdentity(feedId, rest, now)]
  }

  /** When a topic's feed id changes, the topic moves: it is listed under
      the new feed id, no longer under the old one, and the records of all
      other feed ids are untouched. */
  lemma TopicMovesToNewIdentity(ids: map<string, KnownFeedIdentity>, oldId: string, newId: string,
                                topic: string, now: int)
    requires oldId != newId
    requires forall f :: f in ids ==> NoDup(ids[f].topics)
    ensures var removed := AfterRemoval(ids, oldId, topic, now);
      var after := removed[newId := AddAlias(removed, newId, topic, now)];
      && topic in after[newId].topics
      && (oldId in after ==> topic !in after[oldId].topics)
      && forall f :: f != oldId && f != newId ==> (f in after <==> f in ids) && (f in after ==> after[f] == ids[f])
  {
    var removed := AfterRemoval(ids, oldId, topic, now);
    var added := AddAlias(removed, newId, topic, now);
    assert topic in SetOf(added.topics);
  }

  /** The aliases a topic expands to, as the evidently intended rule states
      it: the topic itself, plus the aliases of its identity when it has one
      with at most MAX_IDENTITY_EXPANSION of them. */
  function Aliases(feeds: map<string, KnownFeed>, ids: map<string, KnownFeedIdentity>, t: string): (r: set<string>)
    requires t in feeds
    ensures t in r
    ensures r <= {t} + (if HasFeedId(feeds[t]) && feeds[t].feedId.value in ids
                        then SetOf(ids[feeds[t].feedId.value].topics) else {})
  {
    var f := feeds[t];
    if !HasFeedId(f) || f.feedId.value !in ids then {t}
    else if |ids[f.feedId.value].topics| > Config.MAX_IDENTITY_EXPANSION then {t}
    else {t} + SetOf(ids[f.feedId.value].topics)
  }

  /** derive_additional_topics, with every known topic echoed: each input
      topic that has a KnownFeed maps to its aliases; topics without one are
      dropped. */
  function DerivedTopics(feeds: map<string, KnownFeed>, ids: map<string, KnownFeedIdentity>, topics: set<string>)
    : (r: map<string, set<string>>)
    ensures r.Keys == set t | t in topics && t in feeds
    ensures forall t :: t in r ==> t in r[t] && r[t] == Aliases(feeds, ids, t)
  {
    map t | t in topics && t in feeds :: Aliases(feeds, ids, t)
  }

  /** A known topic whose feed id has no identity record, as the code
      treats it. */
  predicate Unidentified(feeds: map<string, KnownFeed>, ids: map<string, KnownFeedIdentity>, t: string)
    requires t in feeds
  {
    HasFeedId(feeds[t]) && feeds[t].feedId.value !in ids
  }

  /** derive_additional_topics as written: a known topic with a feed id
      but no identity record is left out of the result. */
  function DerivedTopicsAsWritten(feeds: map<string, KnownFeed>, ids: map<string, KnownFeedIdentity>,
                                  topics: set<string>): (r: map<string, set<string>>)
    ensures r.Keys == set t | t in topics && t in feeds && !Unidentified(feeds, ids, t)
    ensures forall t :: t in r ==> r[t] == Aliases(feeds, ids, t)
  {
    map t | t in topics && t in feeds && !Unidentified(feeds, ids, t) :: Aliases(feeds, ids, t)
  }

  /** The as-written rule loses a topic the documented rule echoes: a known
      feed whose id was recorded without an identity record (which happens
      when the identity update fails as too large). A publish of it then
      fetches nothing. */
  lemma AsWrittenDropsUnidentifiedTopic()
    ensures var t := "http://example.com/feed";
      var feeds := map[t := KnownFeed(t, Some("tag:example.com,2009:feed"), 0)];
      var ids: map<string, KnownFeedIdentity> := map[];
      && DerivedTopicsAsWritten(feeds, ids, {t}) == map[]
      && DerivedTopics(feeds, ids, {t}) == map[t := {t}]
  {
    var t := "http://example.com/feed";
    var fid := "tag:example.com,2009:feed";
    var feeds := map[t := KnownFeed(t, Some(fid), 0)];
    var ids: map<string, KnownFeedIdentity> := map[];
    assert Strip(fid) == fid by {
      assert !IsSpace(fid[0]) && !IsSpace(fid[|fid| - 1]);
    }
    UnidentifiedDropped(feeds, ids, t);
  }

  /** A known topic whose feed id has no identity record is dropped as
      written and echoed as documented. */
  lemma UnidentifiedDropped(feeds: map<string, KnownFeed>, ids: map<string, KnownFeedIdentity>, t: string)
    requires t in feeds && Unidentified(feeds, ids, t)
    ensures DerivedTopicsAsWritten(feeds, ids, {t}) == map[]
    ensures DerivedTopics(feeds, ids, {t}) == map[t := {t}]
  {
    assert DerivedTopicsAsWritten(feeds, ids, {t}).Keys == {};
    assert Aliases(feeds, ids, t) == {t};
    assert DerivedTopics(feeds, ids, {t}).Keys == {t};
  }

  /** The two rules agree whenever every recorded feed id has its identity
      record. */
  lemma DerivedTopicsAgree(feeds: map<string, KnownFeed>, ids: map<string, KnownFeedIdentity>, topics: set<string>)
    requires forall t :: t in feeds && HasFeedId(feeds[t]) ==> feeds[t].feedId.value in ids
    ensures DerivedTopics(feeds, ids, topics) == DerivedTopicsAsWritten(feeds, ids, topics)
  {
  }

  /** The datastore's KnownFeed and KnownFeedIdentity entities. */
  class FeedIdentityStore {
    /** KnownFeed entities by topic URL. */
    var knownFeeds: map<string, KnownFeed>
    /** KnownFeedIdentity entities by feed id. */
    var identities: map<string, KnownFeedIdentity>
    /** Topics handed to the record_feeds worker, oldest first. */
    ghost var recordTasks: seq<string>

    /** Each entity is stored under its own key, and an identity's aliases
        are never empty and never repeat. */
    ghost predicate Valid()
      reads this
    {
      && (forall t :: t in knownFeeds ==> knownFeeds[t].topic == t)
      && (forall f :: f in identities ==>
            identities[f].feedId == f && identities[f].topics != [] && NoDup(identities[f].topics))
    }

    constructor()
      ensures Valid() && knownFeeds == map[] && identities == map[] && recordTasks == []
    {
      knownFeeds := map[];
      identities := map[];
      recordTasks := [];
    }

    /** KnownFeed.record: queues the discovery of the topic's feed id. */
    method Record(topic: string)
      modifies this
      ensures recordTasks == old(recordTasks) + [topic]
      ensures knownFeeds == old(knownFeeds) && identities == old(identities)
    {
      recordTasks := recordTasks + [topic];
    }

    /** KnownFeedIdentity.update: adds the topic to the feed id's aliases,
        creating the record if needed. When the datastore refuses the record
        as too large the error is logged and nothing changes. */
    method UpdateIdentity(feedId: string, topic: string, now: int, tooLarge: bool)
      returns (r: Option<KnownFeedIdentity>)
      requires Valid()
      modifies this
      ensures Valid()
      ensures knownFeeds == old(knownFeeds) && recordTasks == old(recordTasks)
      ensures tooLarge ==> r.None? && identities == old(identities)
      ensures !tooLarge ==> r == Some(AddAlias(old(identities), feedId, topic, now))
                            && identities == old(identities)[feedId := r.value]
    {
      if tooLarge {
        return None;
      }
      var updated := AddAlias(identities, feedId, topic, now);
      identities := identities[feedId := updated];
      r := Some(updated);
    }

    /** KnownFeedIdentity.remove: takes the topic out of the feed id's
        aliases and deletes the record once none are left. Returns the
        updated record, or None when there was no such mapping or the record
        was deleted. */
    method RemoveIdentity(feedId: string, topic: string, now: int) returns (r: Option<KnownFeedIdentity>)
      requires Valid()
      modifies this
      ensures Valid()
      ensures knownFeeds == old(knownFeeds) && recordTasks == old(recordTasks)
      ensures identities == AfterRemoval(old(identities), feedId, topic, now)
      ensures feedId !in old(identities) || topic !in old(identities)[feedId].topics ==>
                r.None? && identities == old(identities)
      ensures feedId in old(identities) && topic in old(identities)[feedId].topics ==>
                var rest := RemoveFirst(old(identities)[feedId].topics, topic);
                && SetOf(rest) == SetOf(old(identities)[feedId].topics) - {topic}
                && (rest == [] ==> r.None? && identities == old(identities) - {feedId})
                && (rest != [] ==> r == Some(KnownFeedIdentity(feedId, rest, now))
                                   && identities == old(identities)[feedId := r.value])
    {
      if feedId !in identities || topic !in identities[feedId].topics {
        return None;
      }
      var rest := RemoveFirst(identities[feedId].topics, topic);
      if rest == [] {
        identities := identities - {feedId};
        r := None;
      } else {
        r := Some(KnownFeedIdentity(feedId, rest, now));
        identities := identities[feedId := r.value];
      }
    }

    /** KnownFeedIdentity.derive_additional_topics over the topics given in
        any order: a first pass echoes each known topic without a feed id and
        sets aside the others; a second pass expands those through their
        identity records. A topic whose identity record is missing is echoed,
        as the documented behaviour states. */
    method DeriveAdditionalTopics(topics: seq<string>) returns (output: map<string, set<string>>)
      ensures output == DerivedTopics(knownFeeds, identities, SetOf(topics))
    {
      var ts := Dedup(topics);
      var echoed, withId := SplitKnown(ts);
      output := ExpandIdentified(echoed, withId);
      ghost var expected := DerivedTopics(knownFeeds, identities, SetOf(topics));
      assert SetOf(topics) == SetOf(ts);
      assert output.Keys == expected.Keys;
      forall t | t in output ensures output[t] == expected[t] {
      }
    }

    /** The first loop of derive_additional_topics: known topics without a
        feed id are echoed; those with one are set aside for expansion. */
    method SplitKnown(ts: seq<string>) returns (echoed: map<string, set<string>>, withId: seq<string>)
      ensures forall t :: t in echoed <==> t in ts && t in knownFeeds && !HasFeedId(knownFeeds[t])
      ensures forall t :: t in echoed ==> echoed[t] == {t}
      ensures forall t :: t in withId <==> t in ts && t in knownFeeds && HasFeedId(knownFeeds[t])
    {
      echoed := map[];
      withId := [];
      var i := 0;
      while i < |ts|
        invariant 0 <= i <= |ts|
        invariant forall t :: t in echoed <==> t in ts[..i] && t in knownFeeds && !HasFeedId(knownFeeds[t])
        invariant forall t :: t in echoed ==> echoed[t] == {t}
        invariant forall t :: t in withId <==> t in ts[..i] && t in knownFeeds && HasFeedId(knownFeeds[t])
      {
        var t := ts[i];
        assert ts[..i + 1] == ts[..i] + [t];
        if t in knownFeeds {
          if HasFeedId(knownFeeds[t]) {
            withId := withId + [t];
          } else {
            echoed := echoed[t := {t}];
          }
        }
        i := i + 1;
      }
      assert ts[..i] == ts;
    }

    /** The second loop of derive_additional_topics: each topic with a feed
        id maps to itself plus the topics of its identity record, unless
        the record is missing or lists more than MAX_IDENTITY_EXPANSION. */
    method ExpandIdentified(echoed: map<string, set<string>>, withId: seq<string>)
      returns (output: map<string, set<string>>)
      requires forall t :: t in withId ==> t in knownFeeds && HasFeedId(knownFeeds[t]) && t !in echoed
      ensures forall t :: t in output <==> t in echoed || t in withId
      ensures forall t :: t in echoed ==> output[t] == echoed[t]
      ensures forall t :: t in withId ==> output[t] == Aliases(knownFeeds, identities, t)
    {
      output := echoed;
      var j := 0;
      while j < |withId|
        invariant 0 <= j <= |withId|
        invariant forall t :: t in output <==> t in echoed || t in withId[..j]
        invariant forall t :: t in echoed ==> output[t] == echoed[t]
        invariant forall t :: t in withId[..j] ==> output[t] == Aliases(knownFeeds, identities, t)
      {
        var t := withId[j];
        assert withId[..j + 1] == withId[..j] + [t];
        var fid := knownFeeds[t].feedId.value;
        if fid in identities {
          var identified := identities[fid];
          if |identified.topics| > Config.MAX_IDENTITY_EXPANSION {
            output := output[t := {t}];
          } else {
            output := output[t := {t} + SetOf(identified.topics)];
          }
        } else {
          output := output[t := {t}];
        }
        j := j + 1;
      }
      assert withId[..j] == withId;
    }

    /** RecordFeedHandler.post: finds the topic's feed id and records it in
        both directions. A topic whose feed id was recorded less than
        FEED_IDENTITY_UPDATE_PERIOD ago is left alone; when the fetch fails,
        does not return 200 or yields no feed id, only the KnownFeed is
        written. Otherwise the topic leaves the identity of a different
        feed id it had and joins that of the new one, unless the record is
        too large to write. `identified` is the feed id found in the fetched
        content. */
    method RecordFeed(topic: string, now: int, fetchedOk: bool, identified: Option<string>, tooLarge: bool)
      requires Valid()
      modifies this
      ensures Valid()
      ensures recordTasks == old(recordTasks)
      ensures var oldId := if topic in old(knownFeeds) then old(knownFeeds)[topic].feedId else None;
        var recent := topic in old(knownFeeds) && oldId.Some? && oldId.value != ""
                      && now - old(knownFeeds)[topic].updateTime < Config.FEED_IDENTITY_UPDATE_PERIOD;
        && (recent ==> knownFeeds == old(knownFeeds) && identities == old(identities))
        && (!recent && fetchedOk && identified.Some? && identified.value != "" ==>
              var removed := if oldId.Some? && oldId.value != "" && oldId.value != identified.value
                             then AfterRemoval(old(identities), oldId.value, topic, now) else old(identities);
              && knownFeeds == old(knownFeeds)[topic := KnownFeed(topic, identified, now)]
              && identities == (if tooLarge then removed
                                else removed[identified.value := AddAlias(removed, identified.value, topic, now)]))
        && (!recent && !(fetchedOk && identified.Some? && identified.value != "") ==>
              identities == old(identities) && knownFeeds == old(knownFeeds)[topic := KnownFeed(topic, oldId, now)])
    {
      var known: KnownFeed;
      if topic in knownFeeds {
        known := knownFeeds[topic];
        if known.feedId.Some? && known.feedId.value != ""
           && now - known.updateTime < Config.FEED_IDENTITY_UPDATE_PERIOD {
          return;
        }
      } else {
        known := KnownFeed(topic, None, now);
      }
      if !fetchedOk || identified.None? || identified.value == "" {
        knownFeeds := knownFeeds[topic := known.(updateTime := now)];
        return;
      }
      var feedId := identified.value;
      if known.feedId.Some? && known.feedId.value != "" && known.feedId.value != feedId {
        var _ := RemoveIdentity(known.feedId.value, topic, now);
      }
      var _ := UpdateIdentity(feedId, topic, now, tooLarge);
      knownFeeds := knownFeeds[topic := known.(feedId := Some(feedId), updateTime := now)];
    }
  }
}
