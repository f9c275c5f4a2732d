/** parse_feed: parse a pulled document in the likeliest format first,
    diff its entries, cap the number of new entries per pass, and write the
    feed record, the new event and the entry records in one transaction,
    split into groups of at most MAX_FEED_RECORD_SAVES and split further in
    halves while a group is too large for one put. */
module Parse {
  import opened Common
  import Config
  import opened FeedDiff
  import Records
  import Events

  // ---------------------------------------------------------------------------
  // Choosing the format

  /** A string none of whose windows spells `sub` does not contain it. */
  lemma NotContained(s: string, sub: string)
    requires forall j: nat :: j <= |s| ==> !MatchesAt(s, sub, j)
    ensures !Contains(s, sub)
  {
  }

  /** Of the format names only "rss" mentions rss. */
  lemma RssHint()
    ensures forall f :: Contains(Config.FormatName(f), "rss") <==> f == Config.Rss
  {
    forall f ensures Contains(Config.FormatName(f), "rss") <==> f == Config.Rss {
      match f
      case Rss =>
        assert MatchesAt("rss", "rss", 0);
      case Atom =>
        assert "atom"[0..3] == "ato" && "atom"[1..4] == "tom";
        assert forall j: nat :: j <= 4 ==> !MatchesAt("atom", "rss", j);
        NotContained("atom", "rss");
      case Arbitrary =>
        assert "arbitrary"[0..3] == "arb" && "arbitrary"[1..4] == "rbi" && "arbitrary"[2..5] == "bit";
        assert "arbitrary"[3..6] == "itr" && "arbitrary"[4..7] == "tra" && "arbitrary"[5..8] == "rar";
        assert "arbitrary"[6..9] == "ary";
        assert forall j: nat :: j <= 9 ==> !MatchesAt("arbitrary", "rss", j);
        NotContained("arbitrary", "rss");
    }
  }

  /** The order in which parse_feed tries the formats: RSS first when the
      format that last parsed is RSS or, with none recorded, when the stored
      content type mentions rss; Atom first otherwise; arbitrary last. */
  function FormatOrder(format: Option<Config.Format>, contentType: Option<string>): (r: seq<Config.Format>)
    ensures |r| == 3 && r[2] == Config.Arbitrary && {r[0], r[1]} == {Config.Atom, Config.Rss}
    ensures r[0] == Config.Rss <==>
              format == Some(Config.Rss) || (format.None? && contentType.Some? && Contains(contentType.value, "rss"))
  {
    var hint := if format.Some? then Config.FormatName(format.value)
                else if contentType.Some? then contentType.value else "";
    RssHint();
    if Contains(hint, "rss") then [Config.Rss, Config.Atom, Config.Arbitrary]
    else [Config.Atom, Config.Rss, Config.Arbitrary]
  }

  /** How the parse loop ends: the first format that parsed and its
      updates, an unknown character encoding, or no format parsing. */
  datatype ParseOutcome = Parsed(format: Config.Format, updates: Updates) | BadEncoding | Unparsable

  /** The parse loop as a function of the formats still to try: a parse
      error moves on to the next format, an encoding error ends the loop. */
  function ParseFirst(order: seq<Config.Format>, stored: EntryStore, hash: string -> string, topic: string,
                      content: string, filter: Config.Format -> FilterResult): (r: ParseOutcome)
    ensures r == Unparsable <==>
              forall i :: 0 <= i < |order| ==> FeedUpdates(stored, hash, topic, order[i], content, filter) == Err(ParseFailed)
    ensures r.Parsed? ==> r.format in order && Ok(r.updates) == FeedUpdates(stored, hash, topic, r.format, content, filter)
  {
    if order == [] then Unparsable
    else
      match FeedUpdates(stored, hash, topic, order[0], content, filter)
      case Ok(u) => Parsed(order[0], u)
      case Err(UnknownEncoding) => BadEncoding
      case Err(ParseFailed) =>
        var rest := ParseFirst(order[1..], stored, hash, topic, content, filter);
        assert forall i :: 1 <= i < |order| ==> order[i] == order[1..][i - 1];
        rest
  }

  /** The arbitrary format always parses, so a parse loop whose order ends
      with it never runs out of formats: parse_feed's give-up branch for
      parse failures is dead code. */
  lemma {:induction false} ArbitraryNeverGivesUp(order: seq<Config.Format>, stored: EntryStore, hash: string -> string,
                                                 topic: string, content: string, filter: Config.Format -> FilterResult)
    requires Config.Arbitrary in order
    ensures ParseFirst(order, stored, hash, topic, content, filter) != Unparsable
  {
    var i :| 0 <= i < |order| && order[i] == Config.Arbitrary;
    assert FeedUpdates(stored, hash, topic, order[i], content, filter).Ok?;
  }

  /** parse_feed's loop over the formats, counting parse failures. */
  method ParseInOrder(order: seq<Config.Format>, stored: EntryStore, hash: string -> string, topic: string,
                      content: string, filter: Config.Format -> FilterResult)
    returns (r: ParseOutcome, parseFailures: nat)
    ensures r == ParseFirst(order, stored, hash, topic, content, filter)
    ensures r == Unparsable <==> parseFailures == |order|
  {
    parseFailures := 0;
    var i := 0;
    while i < |order|
      invariant 0 <= i <= |order| && parseFailures == i
      invariant ParseFirst(order[i..], stored, hash, topic, content, filter) == ParseFirst(order, stored, hash, topic, content, filter)
    {
      assert order[i..][1..] == order[i + 1..];
      var result := FindFeedUpdates(stored, hash, topic, order[i], content, filter);
      match result
      case Ok(u) => return Parsed(order[i], u), parseFailures;
      case Err(UnknownEncoding) => return BadEncoding, parseFailures;
      case Err(ParseFailed) => parseFailures := parseFailures + 1;
      i := i + 1;
    }
    r := Unparsable;
  }

  // ---------------------------------------------------------------------------
  // The entities of the transaction

  /** What parse_feed writes: the feed record, the new event, entry records. */
  datatype Entity = FeedRecordEntity(topic: string) | EventEntity(topic: string) | EntryEntity(record: EntryRecord)

  function EntryEntities(records: seq<EntryRecord>): (r: seq<Entity>)
    ensures |r| == |records| && forall i :: 0 <= i < |records| ==> r[i] == EntryEntity(records[i])
  {
    if records == [] then [] else [EntryEntity(records[0])] + EntryEntities(records[1..])
  }

  /** The feed record first, then the event when there is one, then the
      entry records. */
  function Entities(topic: string, withEvent: bool, records: seq<EntryRecord>): seq<Entity>
  {
    [FeedRecordEntity(topic)] + (if withEvent then [EventEntity(topic)] else []) + EntryEntities(records)
  }

  function Flatten(groups: seq<seq<Entity>>): seq<Entity>
  {
    if groups == [] then [] else groups[0] + Flatten(groups[1..])
  }

  lemma {:induction false} FlattenAppend(a: seq<seq<Entity>>, b: seq<seq<Entity>>)
    ensures Flatten(a + b) == Flatten(a) + Flatten(b)
    decreases |a|
  {
    if a != [] {
      assert (a + b)[0] == a[0] && (a + b)[1..] == a[1..] + b;
      FlattenAppend(a[1..], b);
    } else {
      assert a + b == b;
    }
  }

  /** The slices of `step` entities from the front, the last one possibly
      shorter. */
  function Chunks(entities: seq<Entity>, step: nat): seq<seq<Entity>>
    requires step > 0
    decreases |entities|
  {
    if entities == [] then []
    else if |entities| <= step then [entities]
    else [entities[..step]] + Chunks(entities[step..], step)
  }

  /** The slices are the list again, each holds at most `step` entities and
      every one but the last exactly `step`. */
  lemma {:induction false} ChunksPartition(entities: seq<Entity>, step: nat)
    requires step > 0
    ensures var groups := Chunks(entities, step);
      && Flatten(groups) == entities
      && (forall i :: 0 <= i < |groups| ==> 0 < |groups[i]| <= step)
      && (forall i :: 0 <= i < |groups| - 1 ==> |groups[i]| == step)
    decreases |entities|
  {
    if |entities| > step {
      var rest := Chunks(entities[step..], step);
      ChunksPartition(entities[step..], step);
      assert Chunks(entities, step) == [entities[..step]] + rest;
      assert ([entities[..step]] + rest)[1..] == rest;
      assert entities == entities[..step] + entities[step..];
    } else if entities != [] {
      assert Flatten([entities]) == entities + Flatten([]);
    }
  }

  /** The groups of MAX_FEED_RECORD_SAVES: consecutive slices of `step`
      entities, the last one possibly shorter, that together are the list. */
  method ChunkEntities(entities: seq<Entity>, step: nat) returns (groups: seq<seq<Entity>>)
    requires step > 0
    ensures groups == Chunks(entities, step)
    ensures Flatten(groups) == entities
    ensures forall i :: 0 <= i < |groups| ==> 0 < |groups[i]| <= step
    ensures forall i :: 0 <= i < |groups| - 1 ==> |groups[i]| == step
  {
    groups := [];
    var position := 0;
    while position < |entities|
      invariant 0 <= position <= |entities|
      invariant groups + Chunks(entities[position..], step) == Chunks(entities, step)
    {
      var next := if position + step <= |entities| then position + step else |entities|;
      var nextEntities := entities[position..next];
      assert Chunks(entities[position..], step) == [nextEntities] + Chunks(entities[next..], step) by {
        var tail := entities[position..];
        if |tail| > step {
          assert tail[..step] == nextEntities && tail[step..] == entities[next..];
        } else {
          assert tail == nextEntities && entities[next..] == [];
        }
      }
      groups := groups + [nextEntities];
      position := next;
    }
    assert entities[position..] == [];
    ChunksPartition(entities, step);
  }

  // ---------------------------------------------------------------------------
  // The transaction and its put-splitting

  /** How one run of the transaction ends: every group put, or a group too
      large for one put, with the groups put before it and the groups from
      it on. */
  datatype TxnResult = Committed(written: seq<Entity>) | Aborted(done: seq<seq<Entity>>, rest: seq<seq<Entity>>)

  /** One run of txn from the groups still queued, `done` being those this
      run has put: groups are taken from the front while db.put accepts
      them (`fits`). */
  function Txn(queue: seq<seq<Entity>>, done: seq<seq<Entity>>, fits: seq<Entity> -> bool): (r: TxnResult)
    ensures r.Committed? ==> r.written == Flatten(done) + Flatten(queue)
    ensures r.Aborted? ==> && r.rest != [] && !fits(r.rest[0])
                           && Flatten(r.done) + Flatten(r.rest) == Flatten(done) + Flatten(queue)
    decreases |queue|
  {
    if queue == [] then Committed(Flatten(done))
    else if fits(queue[0]) then
      FlattenAppend(done, [queue[0]]);
      assert Flatten([queue[0]]) == queue[0];
      Txn(queue[1..], done + [queue[0]], fits)
    else Aborted(done, queue)
  }

  /** The group that did not fit replaced by its two halves. */
  function SplitFront(rest: seq<seq<Entity>>): (r: seq<seq<Entity>>)
    requires rest != []
    ensures Flatten(r) == Flatten(rest)
  {
    var g := rest[0];
    assert g == g[..|g| / 2] + g[|g| / 2..];
    [g[..|g| / 2], g[|g| / 2..]] + rest[1..]
  }

  /** How the put loop ends: the entities written, or no attempt left. */
  datatype PutResult = Stored(written: seq<Entity>) | GaveUp

  /** PUT_SPLITTING_ATTEMPTS runs of the transaction as the hub runs them:
      after a failed run the queue holds the two halves and the groups
      behind them, but not the groups the failed run had already popped,
      although their puts were rolled back with the transaction. */
  function PutAttemptsAsWritten(queue: seq<seq<Entity>>, n: nat, fits: seq<Entity> -> bool): PutResult
    decreases n
  {
    if n == 0 then GaveUp
    else
      match Txn(queue, [], fits)
      case Committed(w) => Stored(w)
      case Aborted(done, rest) => PutAttemptsAsWritten(SplitFront(rest), n - 1, fits)
  }

  /** The runs of the transaction with the rolled-back groups put back in
      front of the halves. */
  function PutAttempts(queue: seq<seq<Entity>>, n: nat, fits: seq<Entity> -> bool): PutResult
    decreases n
  {
    if n == 0 then GaveUp
    else
      match Txn(queue, [], fits)
      case Committed(w) => Stored(w)
      case Aborted(done, rest) => PutAttempts(done + SplitFront(rest), n - 1, fits)
  }

  /** Whatever the corrected runs commit is every entity queued, in order. */
  lemma {:induction false} PutStoresEverything(queue: seq<seq<Entity>>, n: nat, fits: seq<Entity> -> bool)
    ensures PutAttempts(queue, n, fits).Stored? ==> PutAttempts(queue, n, fits).written == Flatten(queue)
    decreases n
  {
    if n > 0 {
      match Txn(queue, [], fits)
      case Committed(w) =>
      case Aborted(done, rest) =>
        PutStoresEverything(done + SplitFront(rest), n - 1, fits);
        FlattenAppend(done, SplitFront(rest));
        FlattenAppend(done, rest);
    }
  }

  /** The runs as written lose entities: with two groups [a] and [b, c] and
      puts that accept at most one entity, the first run puts [a] and fails
      on [b, c]; the second run starts from [b] and [c] only and commits
      them, so a is never written. */
  lemma PutAsWrittenLosesEntities(a: Entity, b: Entity, c: Entity)
    ensures var fits := (s: seq<Entity>) => |s| <= 1;
      && PutAttemptsAsWritten([[a], [b, c]], Config.PUT_SPLITTING_ATTEMPTS, fits) == Stored([b, c])
      && Flatten([[a], [b, c]]) == [a, b, c]
  {
    var fits := (s: seq<Entity>) => |s| <= 1;
    var q := [[a], [b, c]];
    assert q[1..] == [[b, c]];
    assert Txn(q, [], fits) == Txn([[b, c]], [[a]], fits);
    assert Txn([[b, c]], [[a]], fits) == Aborted([[a]], [[b, c]]);
    var halves := SplitFront([[b, c]]);
    assert [b, c][..1] == [b] && [b, c][1..] == [c];
    assert halves == [[b], [c]];
    assert halves[1..] == [[c]] && [] + [halves[0]] == [[b]];
    assert Txn(halves, [], fits) == Txn([[c]], [[b]], fits);
    assert [[c]][1..] == [];
    assert Txn([[c]], [[b]], fits) == Txn([], [[b], [c]], fits);
    assert Flatten([[b], [c]]) == [b, c] by {
      assert [[b], [c]][1..] == [[c]];
      assert [[c]][1..] == [];
    }
    assert Flatten(q) == [a, b, c] by {
      assert Flatten([[b, c]]) == [b, c];
    }
  }

  /** The put loop of parse_feed, with rolled-back groups put back: every
      run pops groups from the front and puts them; a group too large is
      replaced by its halves and the run is abandoned. */
  method PutEntities(groups: seq<seq<Entity>>, fits: seq<Entity> -> bool) returns (r: PutResult)
    ensures r == PutAttempts(groups, Config.PUT_SPLITTING_ATTEMPTS, fits)
    ensures r.Stored? ==> r.written == Flatten(groups)
  {
    PutStoresEverything(groups, Config.PUT_SPLITTING_ATTEMPTS, fits);
    var allEntities := groups;
    var attempt := 0;
    while attempt < Config.PUT_SPLITTING_ATTEMPTS
      invariant 0 <= attempt <= Config.PUT_SPLITTING_ATTEMPTS
      invariant PutAttempts(allEntities, Config.PUT_SPLITTING_ATTEMPTS - attempt, fits)
                == PutAttempts(groups, Config.PUT_SPLITTING_ATTEMPTS, fits)
    {
      ghost var start := allEntities;
      var popped: seq<seq<Entity>> := [];
      var failed := false;
      ghost var rest: seq<seq<Entity>> := [];
      while allEntities != [] && !failed
        invariant !failed ==> Txn(allEntities, popped, fits) == Txn(start, [], fits)
        invariant failed ==> Txn(start, [], fits) == Aborted(popped, rest) && rest != []
                             && allEntities == SplitFront(rest)
        decreases if failed then 0 else |allEntities| + 1
      {
        var group := allEntities[0];
        ghost var queue := allEntities;
        allEntities := allEntities[1..];
        if fits(group) {
          popped := popped + [group];
        } else {
          rest := queue;
          allEntities := [group[..|group| / 2], group[|group| / 2..]] + allEntities;
          failed := true;
        }
      }
      if !failed {
        return Stored(Flatten(popped));
      }
      // The transaction rolled back: the groups it had put are queued again.
      allEntities := popped + allEntities;
      attempt := attempt + 1;
    }
    r := GaveUp;
  }

  // ---------------------------------------------------------------------------
  // parse_feed

  /** The new entry records parse_feed keeps: at most
      MAX_NEW_FEED_ENTRY_RECORDS, from the front. */
  function Kept<T>(xs: seq<T>): (r: seq<T>)
    ensures |r| <= Config.MAX_NEW_FEED_ENTRY_RECORDS && |r| <= |xs| && r == xs[..|r|]
    ensures |xs| <= Config.MAX_NEW_FEED_ENTRY_RECORDS ==> r == xs
    ensures |xs| > Config.MAX_NEW_FEED_ENTRY_RECORDS ==> |r| == Config.MAX_NEW_FEED_ENTRY_RECORDS
  {
    if |xs| > Config.MAX_NEW_FEED_ENTRY_RECORDS then xs[..Config.MAX_NEW_FEED_ENTRY_RECORDS] else xs
  }

  /** The part of parse_feed after a format parsed. The FeedRecord is
      updated only when the new entries are within
      MAX_NEW_FEED_ENTRY_RECORDS; beyond it only that many are kept and the
      call reports failure, so that the rest come with the next pull. An
      event is created unless an XML feed has no new entry; an envelope
      without closing tag raises (Err). `datastoreFails` stands for a
      TransactionFailedError or Timeout of the transaction. Returns whether
      the pull counts as done, what was written, and the event. */
  method SaveParsed(record: Records.FeedRecord, headers: Records.Headers, format: Config.Format, updates: Updates,
                    trueOnBadFeed: bool, hash: string -> string, fits: seq<Entity> -> bool, datastoreFails: bool,
                    now: int, fromPollingQueue: bool)
    returns (r: Result<bool, Events.EnvelopeError>, saved: seq<Entity>, event: Option<Events.EventToDeliver>)
    requires |updates.payloads| == |updates.records|
    modifies record
    ensures |updates.records| > Config.MAX_NEW_FEED_ENTRY_RECORDS ==>
              && record.format == old(record.format) && record.headerFooter == old(record.headerFooter)
              && record.contentType == old(record.contentType)
              && record.lastModified == old(record.lastModified) && record.etag == old(record.etag)
    ensures |updates.records| <= Config.MAX_NEW_FEED_ENTRY_RECORDS ==>
              && record.format == Some(format)
              && record.lastModified == Records.Lookup(headers, "Last-Modified")
              && record.etag == Records.Lookup(headers, "ETag")
    ensures saved != [] ==>
              && r == Ok(|updates.records| <= Config.MAX_NEW_FEED_ENTRY_RECORDS)
              && saved == Entities(record.topic, format == Config.Arbitrary || Kept(updates.records) != [],
                                   Kept(updates.records))
              && (event.Some? <==> format == Config.Arbitrary || Kept(updates.records) != [])
    ensures saved == [] ==> r == Ok(false) || r == Ok(trueOnBadFeed) || r.Err?
    ensures datastoreFails && r.Ok? ==> r == Ok(false) && saved == []
    ensures !datastoreFails && r.Ok? && saved == [] ==> r == Ok(trueOnBadFeed)
    ensures var withEvent := format == Config.Arbitrary || Kept(updates.records) != [];
      var payload := Events.EventPayload(format, if record.contentType.Some? then record.contentType.value else "",
                                         updates.headerFooter, Kept(updates.payloads));
      && (r.Err? <==> withEvent && payload.Err?)
      && (r.Err? ==> saved == [] && event.None?)
      && (r.Ok? ==> (event.Some? <==> withEvent))
      && (event.Some? ==> payload.Ok? && event.value.topic == record.topic
                          && event.value.payload == payload.value.0 && event.value.contentType == payload.value.1)
      && (r.Ok? && !datastoreFails ==>
            (saved != [] <==> PutAttempts(Chunks(Entities(record.topic, withEvent, Kept(updates.records)),
                                                 Config.MAX_FEED_RECORD_SAVES),
                                          Config.PUT_SPLITTING_ATTEMPTS, fits).Stored?))
    ensures var v := Verdict(Parsed(format, updates), record.topic,
                             if record.contentType.Some? then record.contentType.value else "",
                             trueOnBadFeed, fits, datastoreFails);
      (r.Err? <==> v.None?) && (r.Ok? ==> v == Some(r.value))
    ensures event.Some? ==> fresh(event.value)
    ensures event.Some? && saved == [] ==> event.value.tasks == []
    ensures event.Some? && saved != [] ==>
              event.value.tasks == [Events.DeliveryTask(Events.EnqueueTarget(Events.Normal, fromPollingQueue), now)]
  {
    var parseSuccessful;
    if |updates.records| > Config.MAX_NEW_FEED_ENTRY_RECORDS {
      parseSuccessful := false;
    } else {
      record.Update(headers, Some(updates.headerFooter), Some(format));
      parseSuccessful := true;
    }
    var contentType := if record.contentType.Some? then record.contentType.value else "";
    r, saved, event := SaveUpdates(record.topic, contentType, format, Kept(updates.records), Kept(updates.payloads),
                                   updates.headerFooter, parseSuccessful, trueOnBadFeed, hash, fits, datastoreFails,
                                   now, fromPollingQueue);
  }

  /** SaveParsed once the FeedRecord is updated: the event when one is due,
      then the transaction runs, then the event's delivery task. */
  method SaveUpdates(topic: string, contentType: string, format: Config.Format, records: seq<EntryRecord>,
                     payloads: seq<string>, headerFooter: string, parseSuccessful: bool, trueOnBadFeed: bool,
                     hash: string -> string, fits: seq<Entity> -> bool, datastoreFails: bool, now: int,
                     fromPollingQueue: bool)
    returns (r: Result<bool, Events.EnvelopeError>, saved: seq<Entity>, event: Option<Events.EventToDeliver>)
    ensures var withEvent := format == Config.Arbitrary || records != [];
      var payload := Events.EventPayload(format, contentType, headerFooter, payloads);
      && (r.Err? <==> withEvent && payload.Err?)
      && (r.Err? ==> saved == [] && event.None?)
      && (r.Ok? ==> (event.Some? <==> withEvent))
      && (event.Some? ==> payload.Ok? && event.value.topic == topic
                          && event.value.payload == payload.value.0 && event.value.contentType == payload.value.1)
      && (saved != [] ==> r == Ok(parseSuccessful) && saved == Entities(topic, withEvent, records))
      && (r.Ok? && saved == [] ==> r == Ok(if datastoreFails then false else trueOnBadFeed))
      && (r.Ok? && !datastoreFails ==>
            (saved != [] <==> PutAttempts(Chunks(Entities(topic, withEvent, records), Config.MAX_FEED_RECORD_SAVES),
                                          Config.PUT_SPLITTING_ATTEMPTS, fits).Stored?))
      && (datastoreFails ==> saved == [])
    ensures event.Some? ==> fresh(event.value)
    ensures event.Some? && saved == [] ==> event.value.tasks == []
    ensures event.Some? && saved != [] ==>
              event.value.tasks == [Events.DeliveryTask(Events.EnqueueTarget(Events.Normal, fromPollingQueue), now)]
  {
    var withEvent := format == Config.Arbitrary || records != [];
    var created := EventIfDue(topic, hash, format, contentType, headerFooter, payloads, now, withEvent);
    if created.Err? {
      return Err(created.error), [], None;
    }
    event := created.value;
    if datastoreFails {
      return Ok(false), [], event;
    }
    var put := StoreEntities(topic, withEvent, records, fits);
    if put.GaveUp? {
      return Ok(trueOnBadFeed), [], event;
    }
    saved := put.written;
    if event.Some? {
      event.value.Enqueue(fromPollingQueue);
    }
    r := Ok(parseSuccessful);
  }

  /** The event parse_feed creates when one is due: none when no event is
      due, the envelope error, or a new event with no task yet. */
  method EventIfDue(topic: string, hash: string -> string, format: Config.Format, contentType: string,
                    headerFooter: string, payloads: seq<string>, now: int, withEvent: bool)
    returns (r: Result<Option<Events.EventToDeliver>, Events.EnvelopeError>)
    ensures var payload := Events.EventPayload(format, contentType, headerFooter, payloads);
      && (r.Err? <==> withEvent && payload.Err?)
      && (r.Ok? ==> (r.value.Some? <==> withEvent))
      && (r.Ok? && r.value.Some? ==> payload.Ok? && r.value.value.topic == topic
                                     && r.value.value.payload == payload.value.0
                                     && r.value.value.contentType == payload.value.1)
    ensures r.Ok? && r.value.Some? ==> fresh(r.value.value) && r.value.value.tasks == []
                                       && r.value.value.lastModified == now
                                       && r.value.value.deliveryMode == Events.Normal
  {
    if !withEvent {
      return Ok(None);
    }
    var created := Events.CreateEventForTopic(topic, hash, format, contentType, headerFooter, payloads, now, None);
    if created.Err? {
      return Err(created.error);
    }
    r := Ok(Some(created.value));
  }

  /** The entities of one pull split into groups of MAX_FEED_RECORD_SAVES
      and put by the transaction runs. */
  method StoreEntities(topic: string, withEvent: bool, records: seq<EntryRecord>, fits: seq<Entity> -> bool)
    returns (put: PutResult)
    ensures put == PutAttempts(Chunks(Entities(topic, withEvent, records), Config.MAX_FEED_RECORD_SAVES),
                               Config.PUT_SPLITTING_ATTEMPTS, fits)
    ensures put.Stored? ==> put.written == Entities(topic, withEvent, records) && put.written != []
  {
    var entities := Entities(topic, withEvent, records);
    var groups := ChunkEntities(entities, Config.MAX_FEED_RECORD_SAVES);
    put := PutEntities(groups, fits);
  }

  /** What parse_feed answers for the parse outcome `p`: the value it
      returns, or None for the envelope error it raises. `contentType` is
      the FeedRecord's content type once updated. */
  function Verdict(p: ParseOutcome, topic: string, contentType: string, trueOnBadFeed: bool,
                   fits: seq<Entity> -> bool, datastoreFails: bool): Option<bool>
  {
    if !p.Parsed? then Some(trueOnBadFeed)
    else
      var records := Kept(p.updates.records);
      var withEvent := p.format == Config.Arbitrary || records != [];
      if withEvent && Events.EventPayload(p.format, contentType, p.updates.headerFooter, Kept(p.updates.payloads)).Err?
      then None
      else if datastoreFails then Some(false)
      else match PutAttempts(Chunks(Entities(topic, withEvent, records), Config.MAX_FEED_RECORD_SAVES),
                             Config.PUT_SPLITTING_ATTEMPTS, fits)
           case Stored(_) => Some(|p.updates.records| <= Config.MAX_NEW_FEED_ENTRY_RECORDS)
           case GaveUp => Some(trueOnBadFeed)
  }

  /** parse_feed: the formats are tried in FormatOrder; a document no
      format parses, or one in an unknown encoding, ends the pull with
      true_on_bad_feed and nothing written; otherwise SaveParsed. */
  method ParseFeed(record: Records.FeedRecord, headers: Records.Headers, content: string, trueOnBadFeed: bool,
                   stored: EntryStore, hash: string -> string, filter: Config.Format -> FilterResult,
                   fits: seq<Entity> -> bool, datastoreFails: bool, now: int, fromPollingQueue: bool)
    returns (r: Result<bool, Events.EnvelopeError>, saved: seq<Entity>, event: Option<Events.EventToDeliver>)
    modifies record
    ensures var p := ParseFirst(FormatOrder(old(record.format), old(record.contentType)),
                                stored, hash, record.topic, content, filter);
      var withEvent := p.Parsed? && (p.format == Config.Arbitrary || Kept(p.updates.records) != []);
      && (!p.Parsed? ==> saved == [] && event.None?)
      && (p.Parsed? && |p.updates.records| > Config.MAX_NEW_FEED_ENTRY_RECORDS ==>
            record.format == old(record.format) && record.headerFooter == old(record.headerFooter))
      && (p.Parsed? && |p.updates.records| <= Config.MAX_NEW_FEED_ENTRY_RECORDS ==> record.format == Some(p.format))
      && (p.Parsed? && saved != [] ==> saved == Entities(record.topic, withEvent, Kept(p.updates.records)))
      && (p.Parsed? && r.Ok? ==> (event.Some? <==> withEvent))
      && (p.Parsed? && r.Ok? && !datastoreFails ==>
            (saved != [] <==> PutAttempts(Chunks(Entities(record.topic, withEvent, Kept(p.updates.records)),
                                                 Config.MAX_FEED_RECORD_SAVES),
                                          Config.PUT_SPLITTING_ATTEMPTS, fits).Stored?))
    ensures var v := Verdict(ParseFirst(FormatOrder(old(record.format), old(record.contentType)),
                                        stored, hash, record.topic, content, filter),
                             record.topic, if record.contentType.Some? then record.contentType.value else "",
                             trueOnBadFeed, fits, datastoreFails);
      (r.Err? <==> v.None?) && (r.Ok? ==> v == Some(r.value))
    ensures event.Some? ==> fresh(event.value)
    ensures event.Some? && saved == [] ==> event.value.tasks == []
    ensures event.Some? && saved != [] ==>
              event.value.tasks == [Events.DeliveryTask(Events.EnqueueTarget(Events.Normal, fromPollingQueue), now)]
  {
    var order := FormatOrder(record.format, record.contentType);
    var outcome, parseFailures := ParseInOrder(order, stored, hash, record.topic, content, filter);
    if outcome.BadEncoding? || parseFailures == |order| {
      return Ok(trueOnBadFeed), [], None;
    }
    r, saved, event := SaveParsed(record, headers, outcome.format, outcome.updates, trueOnBadFeed, hash, fits,
                                  datastoreFails, now, fromPollingQueue);
  }
}
