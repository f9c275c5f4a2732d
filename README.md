# PubSubHubbub hub: bookkeeping model

A Dafny model of the bookkeeping core of the PubSubHubbub reference hub
(`hub/main.py`, an App Engine application implementing the PubSubHubbub Core
0.3 draft). It covers:

- subscribing and verifying callbacks;
- receiving publish pings;
- pulling feeds and diffing their entries;
- building events and delivering them, with retries;
- the polling marker and the hook system.

How the model stands in for the platform:

- **Datastore.** Each entity kind is a `map` field of a store class. The
  keys are the subscription key (callback, topic) or the topic. A datastore
  transaction is one atomic update of the map.
- **Task queue.** Every enqueued task is appended to a ghost log kept on the
  store or entity that enqueues it: confirmation tasks, retry tasks, fetch
  batches, delivery tasks and record-feed tasks.
- **Values the hub cannot compute itself** become parameters:
  - `sha1_hash` and `sha1_hmac` are uninterpreted functions;
  - the feed filter (`feed_diff.filter`) is an oracle from format to
    header/footer and entries;
  - network replies are inputs: status, headers and body, or the error
    raised;
  - the random challenge, the current time (integer seconds), the fetch and
    delivery scorers' decisions, and datastore failures are inputs too.

Modules, one file each:

- `common.dfy` has string and number helpers, Python's `str(int(s))`
  check, and base-2 backoff. `config.dfy` has the hub's constants.
- `url.dfy` covers `normalize_iri` and `is_valid_url`.
- `subscriptions.dfy` holds the Subscription entity's state machine and
  its hash-ordered paging.
- `confirmation.dfy` covers `confirm_subscription`, `SubscribeHandler.post`
  and `SubscriptionConfirmHandler.post`.
- `identity.dfy` holds KnownFeed and KnownFeedIdentity, and
  `RecordFeedHandler.post`.
- `fetching.dfy` holds the FeedToFetch work items.
- `publish.dfy` covers `PublishHandler.post` and `receive_publish`.
- `records.dfy` holds FeedRecord and the conditional-GET headers.
- `diff.dfy` covers `find_feed_updates`.
- `events.dfy` holds EventToDeliver and `PushEventHandler.post`.
- `parse.dfy` covers `parse_feed`.
- `pulling.dfy` covers `PullFeedHandler._handle_fetches` for one work item.
- `polling.dfy` holds PollingMarker.
- `hooks.dfy` holds HookManager.

Where the hub's protocol documentation and its code differ, the model follows
the code:

- `hub.verify` is read as a repeated parameter, not a comma-separated list.
- A synchronous confirmation succeeds on any 2xx reply that echoes the
  challenge, not only on 200/204.
- A 404 reply to a subscribe verification archives the subscription. The
  request then counts as handled, so the handler answers 204.
- In `parse_feed`, the branch that gives up when no format parses can never
  be taken, because the arbitrary format is always tried last and never
  fails. `Parse.ArbitraryNeverGivesUp` proves this.

Where the code itself is wrong (see "## Findings"), the model defines both
the code as written and the corrected behaviour. The handlers that build on
such a step use the corrected one. These are marked "(corrected)" in the
table below:

- `derive_additional_topics`: `Identity.FeedIdentityStore.ExpandIdentified`,
  `Identity.FeedIdentityStore.DeriveAdditionalTopics`,
  `Publish.ReceivePublish`, `Publish.PublishPost` and
  `Publish.KnownPublishedTopicIsFetched`;
- the put loop of `parse_feed`: `Parse.PutAttempts`, `Parse.PutEntities`,
  `Parse.StoreEntities`, `Parse.SaveUpdates`, `Parse.SaveParsed`,
  `Parse.Verdict`, `Parse.ParseFeed`, `Pulling.ParseAndSettle`,
  `Pulling.FetchAndSettle` and `Pulling.HandleFetch`;
- `HookManager.execute`: `Hooks.HookManager.Execute`.

## Model

| member | source | states |
|---|---|---|
| Common.UnicodeLowerChar | hub/main.py:2081-2086 | Python 2 `unicode.lower()`: only ASCII capitals, U+0130 and U+212A change, and a character lower-cases to an ASCII letter only if it is that letter, its capital, U+0130 for `i` or U+212A for `k` |
| Common.UnicodeLower | hub/main.py:2371 | `unicode.lower()` character by character, length kept |
| Common.UnicodeLowerSpells | hub/main.py:2086 | a parameter lower-cases to a lowercase ASCII word (such as `publish`) iff it spells the word letter by letter in either case, with U+0130 for `i` and U+212A for `k` |
| Common.CanonicalIntRoundTrip | hub/main.py:2112-2120 | the lease check `s == str(int(s))` accepts exactly the strings Python prints for an integer, and recovers that integer |
| Common.TotalDelayClosedForm | hub/main.py:1000-1042 | k retries in a row under base-2 backoff wait period·(2^k − 1) seconds in all |
| Url.Utf8Encode | hub/main.py:601-604 | a character's UTF-8 encoding has 1 to 4 bytes; it is one byte equal to the code exactly when the character is ASCII; otherwise every byte is ≥ 0x80 |
| Url.Utf8CharRoundTrip | hub/main.py:601-604 | decoding accepts exactly the encodings: a byte sequence decodes to c iff it is the encoding of c |
| Url.Utf8StringRoundTrip | hub/main.py:601-604 | decoding the UTF-8 encoding of any string gives the string back |
| Url.Quote | hub/main.py:603 | `urllib.quote` output is pure ASCII |
| Url.QuoteEscapesHighBytes | hub/main.py:603 | `quote` turns every byte ≥ 0x80 into its `%XX` escape, whatever the safe set |
| Url.CharOrEscape | hub/main.py:601-604 | the per-character mapping yields ASCII only |
| Url.CharOrEscapeIs | hub/main.py:601-604 | an ASCII character maps to itself; any other character maps to the `%XX` escapes of its UTF-8 bytes (6 to 12 characters) |
| Url.NormalizeIri | hub/main.py:590-606 | the result is pure ASCII and never shorter than the input |
| Url.NormalizeIriConcat | hub/main.py:590-606 | the mapping works character by character and distributes over concatenation |
| Url.NormalizeIriFixpoint | hub/main.py:590-606 | a URL is left unchanged iff it is already ASCII |
| Url.NormalizeIriIdempotent | hub/main.py:590-606 | normalizing twice equals normalizing once |
| Url.NormalizeIriReversible | hub/main.py:590-606 | for input without `%`, percent-decoding the result gives the UTF-8 bytes of the input, which decode back to the input |
| Url.SplitHttpUrl | hub/main.py:2014 | `urlparse` of an http(s) URL without fragment yields its scheme, network location, path and query |
| Url.UnsplitHttpUrl | hub/main.py:2032 | `urlunparse` of those parts gives the URL back |
| Url.ValidHttpUrl | hub/main.py:656-672 | `is_valid_url` accepts every http or https URL with a host whose brackets are balanced, an allowed port or none, and no fragment; `urlparse` does not raise on it |
| Url.FragmentRejected | hub/main.py:656-672 | `is_valid_url` rejects every URL that has a fragment |
| Url.UrlSplit | hub/main.py:658 | `urlsplit` of Python 2.7, on which `urlparse` builds: scheme before the first `:`, network location after `//`, query after the first `?`, fragment after the first `#`; SplitHttpUrl and FragmentRejected state what it gives |
| Url.LastIndexOf | hub/main.py:2014 | the index of the last occurrence of a character, or -1 when there is none (`rfind`) |
| Url.SplitParams | hub/main.py:2014 | `_splitparams`: a path without `;` has no parameters; otherwise path and parameters are the two sides of a `;` |
| Url.UrlParse | hub/main.py:2014 | `urlparse` is `urlsplit` with the path of an http(s) (or other parameter-using) scheme split into path and parameters |
| Url.ParamsRejoined | hub/main.py:2014-2032 | `urlunparse` after `urlparse` gives the path back, except that a trailing `;` with nothing after it is dropped; a path starting with `/` keeps its `/` |
| Url.EmptyParamsDropped | hub/main.py:2014-2032 | the path `/segment;` comes back as `/segment` |
| Url.UrlParseRaises | hub/main.py:658 | the `ValueError` `urlsplit` raises when the network location holds a `[` but no `]`, or the reverse; ValidHttpUrl shows balanced hosts do not raise |
| Url.IsValidUrl | hub/main.py:656-672 | for a URL `urlparse` does not raise on, an accepted URL has scheme http or https and no fragment; outside the development server its port is absent or one of VALID_PORTS; ValidHttpUrl and FragmentRejected give the converse for structured URLs and for fragments |
| Subscriptions.Fresh | hub/main.py:788-847 | a first request creates a well-formed record, not verified, without failures, due now |
| Subscriptions.AfterInsert | hub/main.py:733-786 | insert leaves the record verified, with no failures, expiring lease_seconds from now, with the new token and secret; an existing record keeps its lease; every other key is unchanged; the store stays well-formed |
| Subscriptions.AfterRequestInsert | hub/main.py:788-847 | a missing record is created not verified; an existing record only has its failures cleared; no other key changes |
| Subscriptions.AfterArchive | hub/main.py:901-916 | archive marks an existing record to_delete with failures cleared; it does nothing when the record is absent; no other key changes |
| Subscriptions.ConfirmFailedOutcome | hub/main.py:1000-1042 | below the cap: retry with eta = now + period·2^failures and the failure counted; at the cap: no retry and nothing written |
| Subscriptions.ConfirmFailuresGiveUp | hub/main.py:1000-1042 | starting without failures, the k-th failure (k ≤ max) is retried period·2^(k−1) seconds later; the next failure gives up |
| Subscriptions.NextPageNeitherSkipsNorRepeats | hub/main.py:934-956 | a page of count+1 records, resumed at its last record, hands out the first count records and then exactly the rest |
| Subscriptions.SubscriptionStore.Insert | hub/main.py:733-786 | returns True iff no record existed; the new store is AfterInsert; no task is enqueued |
| Subscriptions.SubscriptionStore.RequestInsert | hub/main.py:788-847 | returns True iff no record existed; the new store is AfterRequestInsert; one confirmation task towards verified is enqueued |
| Subscriptions.SubscriptionStore.Remove | hub/main.py:849-870 | returns True iff the record existed; afterwards there is none; nothing else changes |
| Subscriptions.SubscriptionStore.RequestRemove | hub/main.py:872-899 | an existing record has its failures cleared and a confirmation towards to_delete is enqueued; a missing record changes nothing |
| Subscriptions.SubscriptionStore.Archive | hub/main.py:901-916 | the store becomes AfterArchive; no task is enqueued |
| Subscriptions.SubscriptionStore.ConfirmFailed | hub/main.py:1000-1042 | follows ConfirmFailedOutcome: on retry, writes the record back and enqueues the confirmation at the new eta; otherwise changes nothing |
| Subscriptions.SubscriptionStore.HasSubscribers | hub/main.py:918-932 | true iff some verified subscription has the topic's hash |
| Subscriptions.SubscriptionStore.HasSubscribersIffFirstPage | hub/main.py:918-956 | a topic has subscribers iff a one-record query finds one |
| Subscriptions.SubscriptionStore.GetSubscribers | hub/main.py:934-956 | returns the first min(count, n) verified subscriptions of the topic whose hash is ≥ hash(starting_at), in ascending hash order |
| Confirmation.FirstVerifyType | hub/main.py:2081-2107 | the verify type is the first of "sync"/"async" in request order; none when no value names one |
| Confirmation.ReadSubscribe | hub/main.py:2079-2086 | a missing or empty lease reads as the default lease |
| Confirmation.ValidateSubscribe | hub/main.py:2088-2128 | `urlparse` raising on the callback or the topic ends the request (UrlRaised) exactly when one of them raises; otherwise the request is valid iff callback and topic are valid URLs, a verify type is known, the mode is subscribe/unsubscribe and the lease is canonical; each error is reported; a valid request carries the normalized URLs |
| Confirmation.RealLeaseSeconds | hub/main.py:2016 | the lease is capped at MAX_LEASE_SECONDS and otherwise kept |
| Confirmation.VerifyParams | hub/main.py:2017-2030 | the hub.mode, hub.topic, hub.challenge and hub.lease_seconds parameters, then hub.verify_token when one was given |
| Confirmation.VerificationUrl | hub/main.py:2014-2032 | the callback split with `urlparse`, the hub's parameters joined to its query, and put back together with `urlunparse`; VerificationUrlKeepsQuery states what that gives |
| Confirmation.PathAndJoinedQuery | hub/main.py:2026-2030 | the hub's parameters follow the callback's query after `&`, or start the query after `?` |
| Confirmation.VerificationUrlKeepsQuery | hub/main.py:2014-2032 | the verification URL is the callback with its path rejoined by `urlunparse` (ParamsRejoined: unchanged unless it ends in an empty `;`), its own query kept, followed by `?` or `&` and the hub's parameters; a callback whose path does not end in `;` is kept verbatim |
| Confirmation.OutcomeOf | hub/main.py:2045-2066 | confirmed iff a 2xx reply echoes the challenge; archived iff a subscribe got 404; otherwise not confirmed |
| Confirmation.AfterConfirm | hub/main.py:2045-2061 | a confirmed subscribe is verified with the capped lease; a confirmed unsubscribe removes the record; a 404 archives it; a failure changes nothing |
| Confirmation.ConfirmSubscription | hub/main.py:1990-2066 | returns True iff the outcome is not "not confirmed"; the store becomes AfterConfirm; the feed is recorded iff a subscribe was confirmed with record_topic; the URL fetched is the verification URL |
| Confirmation.SubscribeStatus | hub/main.py:2122-2164 | 500 iff `urlparse` raised; 400 iff otherwise invalid; 503 iff the datastore or queue failed; 204 for an unsubscribe of nothing or a confirmed sync request; 409 for a sync request not confirmed; 202 for async |
| Confirmation.RecordIf | hub/main.py:2047-2051 | the feed is queued for recording exactly when the condition holds; the KnownFeed and identity maps are untouched |
| Confirmation.SubscribeSync | hub/main.py:2139-2146 | 204 unless the outcome is "not confirmed", then 409; the store becomes AfterConfirm with the capped lease; no task is enqueued; the topic is queued for recording iff a subscribe was confirmed |
| Confirmation.SubscribeAsync | hub/main.py:2147-2158 | a subscribe is stored by request_insert and its confirmation task is enqueued at the stored eta on the confirmation queue; an unsubscribe resets the failure count and enqueues a to-delete task on the subscription queue |
| Confirmation.HandleSubscribe | hub/main.py:2122-2164 | the status is SubscribeStatus (500 or 400 for a request that raised or is invalid); a bad request, a failure or an unsubscribe of nothing changes nothing; otherwise the store and task log become exactly what the sync or async path gives; the KnownFeed and identity maps are untouched |
| Confirmation.SubscribePost | hub/main.py:2076-2164 | HandleSubscribe on the validated request: the same status and the same new store, task log and record log |
| Confirmation.ConfirmTaskPost | hub/main.py:2171-2206 | a task for a missing subscription does nothing; a handled reply applies AfterConfirm and enqueues nothing; below the cap a failure backs off and re-enqueues the same task at the new eta on the queue its auto_reconfirm selects; at the cap an automatic reconfirmation archives the subscription and nothing is enqueued |
| Identity.AddAlias | hub/main.py:1872-1897 | the alias list gains the topic unless listed; it keeps its order and stays duplicate-free |
| Identity.Aliases | hub/main.py:1930-1988 | a topic expands to itself plus, at most, the aliases of its identity record |
| Identity.DerivedTopics | hub/main.py:1930-1988 | every known input topic maps to its aliases, and itself is among them; unknown topics are dropped |
| Identity.DerivedTopicsAsWritten | hub/main.py:1930-1988 | as written: a known topic whose feed id has no identity record is also dropped |
| Identity.AsWrittenDropsUnidentifiedTopic | hub/main.py:1930-1988 | counterexample: such a topic maps to nothing as written, and to itself as documented |
| Identity.DerivedTopicsAgree | hub/main.py:1930-1988 | the two rules agree whenever every recorded feed id has its identity record |
| Identity.FeedIdentityStore.Record | hub/main.py:1704-1725 | KnownFeed.record enqueues the topic for feed-id discovery and writes nothing else |
| Identity.FeedIdentityStore.UpdateIdentity | hub/main.py:1872-1897 | the identity becomes AddAlias; a record too large to write is left as it was |
| Identity.AfterRemoval | hub/main.py:1899-1928 | other identities are untouched; the record keeps a subset of its aliases, exactly all but the topic when it had no duplicates; a topic not listed changes nothing |
| Identity.TopicMovesToNewIdentity | hub/main.py:3088-3097 | after a topic moves from one feed id to another, the new identity lists it, the old one no longer does, and every other identity is as it was |
| Identity.FeedIdentityStore.RemoveIdentity | hub/main.py:1899-1928 | the identities become AfterRemoval: the topic leaves the alias list, an emptied record is deleted, an absent topic changes nothing |
| Identity.FeedIdentityStore.DeriveAdditionalTopics | hub/main.py:1930-1988 | (corrected) the two-pass loop computes DerivedTopics of the distinct input topics |
| Identity.FeedIdentityStore.SplitKnown | hub/main.py:1947-1967 | the first pass: known topics without a feed id map to themselves; exactly the known topics with one are kept for the second pass |
| Identity.FeedIdentityStore.ExpandIdentified | hub/main.py:1969-1986 | (corrected) the second pass: each topic with a feed id maps to its aliases, itself included even without an identity record; the echoed entries are kept as they were |
| Identity.FeedIdentityStore.RecordFeed | hub/main.py:3030-3100 | a recently identified topic changes nothing; a found feed id rewrites the KnownFeed, removes the topic from the previous identity by AfterRemoval when the id changed, and adds it to the new identity by AddAlias unless too large; without a feed id only the KnownFeed is rewritten, keeping its old id |
| Fetching.WorkItems | hub/main.py:1078-1127 | one new work item per distinct topic (the list reduced to a set), all due now without failures |
| Fetching.ByTopic | hub/main.py:1078-1127 | one entry per topic of the inserted items, each an item of that topic |
| Fetching.ByTopicStoresEach | hub/main.py:1078-1127 | when no topic repeats, every inserted item is the one stored under its topic |
| Fetching.FetchFailedOutcome | hub/main.py:1129-1160 | below the cap: eta = now + period·2^failures and the failure counted; at the cap: totally_failed is set |
| Fetching.FetchFailuresGiveUp | hub/main.py:1129-1160 | from a new item, pulls 1..max are retried with doubling delays; pull max+1 marks the item totally failed |
| Fetching.AfterDone | hub/main.py:1162-1182 | done deletes the item only if its stored eta is still the one the worker saw |
| Fetching.FetchStore.Insert | hub/main.py:1078-1127 | nothing for an empty list; otherwise one new item per distinct topic, as an in-memory batch or written to the store |
| Fetching.FetchStore.Put | hub/main.py:1116-1122 | `db.put(feed_list)`: the items are written under their topics; batches and retries are untouched |
| Fetching.FetchStore.FetchFailed | hub/main.py:1129-1160 | writes FetchFailedOutcome and enqueues a retry below the cap; a failed transaction changes nothing |
| Fetching.FetchStore.Done | hub/main.py:1162-1182 | returns whether the item was deleted; the store becomes AfterDone |
| Publish.NormalizedTopics | hub/main.py:2328 | the set of normalized published URLs |
| Publish.Expanded | hub/main.py:2332-2340 | the union of all alias sets of the derived topic map |
| Publish.KnownPublishedTopicIsFetched | hub/main.py:2328-2350 | (corrected) a published topic that has a KnownFeed is always fetched |
| Publish.KnownPublishedTopicAsWritten | hub/main.py:2328-2350 | as written: a published known topic is fetched unless its feed id lacks an identity record, and nothing is fetched that the corrected rule would not fetch |
| Publish.FetchedTopicsComeFromThePublish | hub/main.py:2328-2350 | every fetched topic is an alias of a published known topic, and a topic not published itself comes from an identity record |
| Publish.UnionOfAliases | hub/main.py:2332-2340 | the merging loop computes Expanded |
| Publish.FirstFailure | hub/main.py:2320-2323 | every URL passes iff none raises in `urlparse` and each passes `is_valid_url`; otherwise the outcome is that of the first URL that does not pass, Raised if it raises, Rejected if not, every URL before it passing |
| Publish.CheckUrls | hub/main.py:2320-2323 | the validation loop ends as FirstFailure says |
| Publish.ReceivePublish | hub/main.py:2306-2357 | (corrected) 400 on an invalid URL, 500 when `urlparse` raises first, nothing fetched in either case; otherwise the expanded known topics become one in-memory fetch batch; 503 when that insert fails; success code otherwise, or when there is nothing to fetch |
| Publish.PublishRequest | hub/main.py:2367-2382 | accepted iff the mode lower-cased by `unicode.lower()` is "publish" and at least one hub.url is given; the URLs are the set of hub.url values |
| Publish.PublishPost | hub/main.py:2367-2388 | (corrected) 400 for a bad mode, no hub.url or an invalid URL; 500 when `urlparse` raises on a URL first; for a valid request, 503 when there is something to fetch and the insert fails, 204 otherwise; when stored, one new in-memory batch holding each expanded known topic once, all new work due now |
| Records.Lookup | hub/main.py:1289-1320 | `headers.get(name)`: present iff the header was sent |
| Records.AssembleNames | hub/main.py:1322-1345 | the request headers are the three caching ones, each conditional header when its validator is non-empty, and the User-Agent when the subscriber count is not zero |
| Records.AssembleValues | hub/main.py:1322-1345 | under pairwise-distinct header names, each conditional header is sent exactly when its validator is non-empty and carries it; the fixed headers and the User-Agent have their documented values |
| Records.RequestHeadersFor | hub/main.py:1322-1345 | caching is switched off; non-empty Last-Modified/ETag come back as If-Modified-Since/If-None-Match, and only then; a non-zero subscriber count goes in the User-Agent; no other header |
| Records.FeedRecord.Update | hub/main.py:1289-1320 | takes the lower-cased content type and both validators from the response; records the given format; records the header/footer except for the arbitrary format |
| Records.ConditionalGetEchoesValidators | hub/main.py:1289-1345 | after an update, the next pull sends back exactly the non-empty validators the feed answered with |
| FeedDiff.ChangedEntries | hub/main.py:2435-2450 | an entry is emitted iff its id hash is unseen or its stored content hash differs |
| FeedDiff.ChangedPositions | hub/main.py:2435-2450 | the changed entries sit at strictly increasing positions of the feed, one per emitted entry, and every changed entry's position is among them: feed order is kept |
| FeedDiff.SnocPositions | hub/main.py:2435-2450 | appending an entry, changed or not, extends the positions of the changed entries |
| FeedDiff.ChangedEntriesSnoc | hub/main.py:2435-2450 | the changed entries of a feed are those of all but its last entry, then the last one if it changed |
| FeedDiff.RecordsOf | hub/main.py:1394-1413 | one entry record per changed entry, holding its content hash |
| FeedDiff.PayloadsOf | hub/main.py:2448 | one payload per changed entry, in the same order |
| FeedDiff.LookupExisting | hub/main.py:2422-2431 | the batched lookups yield exactly the stored content hashes of the feed's entry ids |
| FeedDiff.DiffEntries | hub/main.py:2435-2452 | the loop emits the records and payloads of exactly the changed entries, in parallel |
| FeedDiff.FeedUpdates | hub/main.py:2391-2452 | arbitrary content is returned whole, with no entries; otherwise parse and encoding errors are reported; records and payloads stay parallel and match the changed entries one for one |
| FeedDiff.FindFeedUpdates | hub/main.py:2391-2452 | computes FeedUpdates |
| FeedDiff.NoneChanged | hub/main.py:2441-2444 | entries all seen with the same content emit nothing |
| FeedDiff.SavedLookup | hub/main.py:1394-1413 | after saving records, a key holds the saved hash and any other key keeps its old value |
| FeedDiff.NoChangeAfterSave | hub/main.py:2391-2452 | once the emitted records are saved, diffing the same entries again emits nothing |
| Events.SpliceAt | hub/main.py:1490-1512 | no `</` is an error; the entries go before the last closing tag, or before the one above it for RSS (an error when there is none); the content type follows the tag |
| Events.EventPayload | hub/main.py:1450-1526 | arbitrary content is delivered as fetched; otherwise the payload is the XML declaration, the header up to the splice point, the entries one per line, then the rest |
| Events.KeysOf | hub/main.py:1616 | the failed subscriptions' keys, in order |
| Events.Resolve | hub/main.py:1556-1586 | the stored subscriptions of the given keys; missing ones are skipped |
| Events.RetryChunk | hub/main.py:1556-1586 | at most chunk keys from the front of the failed list, cut before the sentinel; "more" iff keys remain and the sentinel was not reached |
| Events.InsertByHash | hub/main.py:1613-1614 | inserting keeps the list sorted by callback hash and adds exactly one element |
| Events.SortByHash | hub/main.py:1613-1614 | the newly failed subscriptions are sorted by callback hash, as a permutation |
| Events.AfterUpdate | hub/main.py:1590-1651 | deleted iff no more callbacks and no failures; failed keys are appended; at the end of a pass the cursor resets, mode becomes RETRY and attempts grow by one; totally_failed once attempts exceed the max; otherwise last_modified backs off |
| Events.RepeatPasses | hub/main.py:1590-1651 | repeated passes keep the failed list |
| Events.RetryPassesGiveUp | hub/main.py:1590-1651 | from a new event, pass k sets attempts = k and delays period·2^(k−1); the event is totally failed iff k > max |
| Events.EnqueueTarget | hub/main.py:1653-1675 | retries go to the retry queue; other deliveries go to the polling or event queue |
| Events.EventToDeliver.constructor | hub/main.py:1450-1526 | a new event starts in NORMAL mode at the first subscriber, with no failures |
| Events.EventToDeliver.GetNextSubscribers | hub/main.py:1528-1588 | NORMAL: asks for chunk+1 subscribers, returns the first chunk, "more" iff more were found, and resumes at the extra one; RETRY: returns RetryChunk resolved and drops exactly that prefix |
| Events.EventToDeliver.Update | hub/main.py:1590-1651 | the new state is AfterUpdate with the failed subscriptions sorted by hash; re-enqueued iff neither deleted nor totally failed |
| Events.EventToDeliver.Advance | hub/main.py:1590-1651 | given the failed keys in hash order, the new state is AfterUpdate, or the event is deleted; the retry task is enqueued iff the event is neither deleted nor totally failed |
| Events.EventToDeliver.Enqueue | hub/main.py:1653-1675 | enqueues one delivery task at last_modified on EnqueueTarget |
| Events.CreateEventForTopic | hub/main.py:1450-1526 | a new event carrying EventPayload, or the envelope error |
| Events.NormalPagesNeitherSkipNorRepeat | hub/main.py:1546-1555 | successive NORMAL chunks neither skip nor repeat a subscriber |
| Events.DeliveryHeaders | hub/main.py:2898-2904 | Content-Type is the event's type or text/xml; the signature is the HMAC under the secret, or under the verify token when there is no secret |
| Events.DeliveryOutcome | hub/main.py:2861-2895 | the attempted set is the chunk minus blocked subscribers; the failed set holds those attempted without a 2xx reply |
| Events.DeliverChunk | hub/main.py:2857-2921 | the failed set is the allowed, undelivered subscribers of the chunk; the event becomes AfterUpdate of its progress with them, or is deleted; it is re-enqueued iff neither deleted nor totally failed |
| Events.PushEventPost | hub/main.py:2845-2921 | the chunk sent is the first chunk of a page of chunk+1 candidates from the cursor, "more" iff the page was full (NORMAL), or the resolved RetryChunk (RETRY); the failed set is the allowed, undelivered subscribers and every one's key is kept on the event; the event becomes AfterUpdate of the progress after paging with the failures sorted by hash, or is deleted exactly when AfterUpdate says so; re-enqueued iff neither deleted nor totally failed |
| Events.FailedKeysKept | hub/main.py:1613-1617 | every failed subscription's key is on the extended failed list |
| Parse.RssHint | hub/main.py:2560-2563 | among the format names, only "rss" contains "rss" |
| Parse.FormatOrder | hub/main.py:2560-2563 | atom and rss in some order, then arbitrary; rss first iff the stored format is rss, or no format is stored and the content type mentions rss |
| Parse.ParseFirst | hub/main.py:2565-2592 | unparsable iff every format fails to parse; otherwise the first format that works and its updates |
| Parse.ArbitraryNeverGivesUp | hub/main.py:2565-2592 | with arbitrary in the order, the parse never gives up |
| Parse.ParseInOrder | hub/main.py:2565-2592 | the loop computes ParseFirst and counts one failure per format tried |
| Parse.EntryEntities | hub/main.py:2619-2621 | one entity per entry record, in order |
| Parse.FlattenAppend | hub/main.py:2626-2630 | flattening distributes over concatenation |
| Parse.ChunksPartition | hub/main.py:2626-2630 | the slices of Chunks flatten back to the entities; each has 1 to step of them; all but the last have exactly step |
| Parse.ChunkEntities | hub/main.py:2626-2630 | the loop computes Chunks, so the groups flatten back to the entities, each has 1 to step of them and all but the last have exactly step |
| Parse.Txn | hub/main.py:2637-2651 | a committed transaction writes everything queued; an abort leaves a too-large front group, and nothing is lost |
| Parse.SplitFront | hub/main.py:2645-2648 | splitting the front group in halves keeps the flattened list |
| Parse.PutAttemptsAsWritten | hub/main.py:2637-2663 | as written: PUT_SPLITTING_ATTEMPTS runs of the transaction, each retry starting from the split halves without the groups the failed run popped; PutAsWrittenLosesEntities shows the loss |
| Parse.PutAttempts | hub/main.py:2637-2663 | (corrected) the same runs with the rolled-back groups put back in front of the halves; PutStoresEverything proves a stored result wrote every entity |
| Parse.PutStoresEverything | hub/main.py:2637-2663 | with the groups put back, a stored result wrote exactly the whole entity list |
| Parse.PutAsWrittenLosesEntities | hub/main.py:2637-2663 | counterexample: as written, a retry after a split commits without the group popped before the abort |
| Parse.PutEntities | hub/main.py:2637-2663 | (corrected) the pop-and-split loop computes the corrected PutAttempts and, when it stores, writes every entity |
| Parse.Kept | hub/main.py:2597-2601 | at most MAX_NEW_FEED_ENTRY_RECORDS entries are kept, from the front |
| Parse.EventIfDue | hub/main.py:2607-2619 | no event unless one is due; the envelope error iff one is due and EventPayload fails; otherwise a new event for the topic carrying EventPayload's payload and content type, with no task |
| Parse.StoreEntities | hub/main.py:2621-2663 | (corrected) the result is PutAttempts over Chunks of the record, the event and the kept entries; a stored result wrote exactly those entities |
| Parse.SaveUpdates | hub/main.py:2607-2676 | (corrected) an error iff an event is due and EventPayload fails, and then nothing is written; with a datastore failure nothing is written and the result is False; otherwise something is written iff PutAttempts stores, the result then being whether the entries were within the cap, and true_on_bad_feed on a give-up; the event exists iff due and is enqueued once iff something was written |
| Parse.SaveParsed | hub/main.py:2597-2676 | (corrected) over the cap the record is left; otherwise it is updated with the format and the response's validators; the result is Verdict of the parsed outcome (an error iff an event is due and EventPayload fails; False on a datastore failure; the cap check when PutAttempts stores; true_on_bad_feed on a give-up); what is written is the record, the event and the kept entries; the event carries EventPayload and is enqueued once iff something was written |
| Parse.Verdict | hub/main.py:2528-2676 | (corrected) parse_feed's answer: true_on_bad_feed when nothing parses; the envelope error when an event is due and EventPayload fails; False on a datastore failure; the cap check when PutAttempts stores; true_on_bad_feed when the put gives up; SaveParsed and ParseFeed return it |
| Parse.ParseFeed | hub/main.py:2528-2676 | (corrected) formats are tried in FormatOrder; an unparsable document gives true_on_bad_feed and writes nothing; otherwise the result is Verdict of the first format that parses, and the record, entities written and event are SaveParsed's |
| Pulling.Dispatch | hub/main.py:2736-2765 | 200 → parse; 301/302/303/307 with Location → redirect while attempts < MAX_REDIRECTS, failed fetch after; 304 → done, success; too large or invalid URL → done, failure; anything else → failed fetch |
| Pulling.Follow | hub/main.py:2736-2765 | following redirects always ends in something other than a redirect |
| Pulling.PullIsBounded | hub/main.py:2736-2765 | a pull makes 1 to MAX_REDIRECTS fetches and acts on the dispatch of the last one |
| Pulling.EndlessRedirectsFail | hub/main.py:2736-2765 | a publisher that always redirects makes the pull fail after exactly MAX_REDIRECTS fetches |
| Pulling.FollowStep | hub/main.py:2736-2765 | following one redirect leaves the pull's outcome and last URL unchanged |
| Pulling.Pull | hub/main.py:2736-2765 | the fetch loop ends on the last URL and fetch count of Final, with the dispatch Follow gives |
| Pulling.Settle | hub/main.py:2719-2774 | done marks the item done (AfterDone); otherwise FetchFailedOutcome is written and a retry queued below the cap, unless the transaction fails |
| Pulling.ParseAndSettle | hub/main.py:2768-2774 | (corrected) the result is parse_feed's Verdict with true_on_bad_feed set: Aborted on an envelope error, leaving the item as it was; otherwise the item is settled by that success |
| Pulling.FetchAndSettle | hub/main.py:2715-2774 | (corrected) a done dispatch (304, too large, invalid URL) gives its success and marks the item done (AfterDone, no retry); a failed fetch gives failure and backs the item off; a 200 gives the Verdict of the parse and settles the item by it |
| Pulling.HandleFetch | hub/main.py:2682-2801 | (corrected) a blocked feed, or one nobody subscribes to, is marked done; otherwise the pull's last dispatch decides: done (304, too large, invalid URL) → its success, with the item marked done and no retry; failed fetch → failure, with the item backed off and a retry below the cap unless the transaction fails; 200 → Verdict of the parse, the item done on success and backed off on failure; an aborted one is left as it was |
| Polling.Step | hub/main.py:1829-1847 | progresses iff the marked start has passed; then the marked start becomes the last start and the next start is now + period |
| Polling.StartsAreSpaced | hub/main.py:1829-1847 | whenever the marker is consulted, every poll starts after the marked time and any two starts are more than one period apart |
| Polling.PollingMarker.Get | hub/main.py:1814-1827 | a new marker is due from one minute before its creation |
| Polling.PollingMarker.ShouldProgress | hub/main.py:1829-1847 | the result and the new fields are Step of the old fields |
| Hooks.FirstElecting | hub/main.py:3443-3452 | the first hook that elects, if any; none iff no hook elects |
| Hooks.ExecutedAsWritten | hub/main.py:3429-3464 | as written: undeclared → InvalidHookError; the first electing hook, else the original, is called with the caller's arguments |
| Hooks.FirstElectingIsFirst | hub/main.py:3443-3452 | at most one hook is the first to elect |
| Hooks.Executed | hub/main.py:3332-3343 | as documented: undeclared → InvalidHookError; no hook elects → the original with the given arguments; otherwise the first electing hook with the arguments as inspection left them |
| Hooks.ExecuteDropsRewrittenArgs | hub/main.py:3429-3464 | counterexample: a hook that rewrites the arguments it elects on is handed the old ones as written |
| Hooks.ArgsAfterExtend | hub/main.py:3443-3446 | a later hook does not change what earlier hooks see |
| Hooks.FirstElectingAlike | hub/main.py:3443-3452 | hook lists whose first n hooks elect alike have the same first elector among them |
| Hooks.FirstElectingExtend | hub/main.py:3466-3480 | registering a hook never takes a call from an earlier hook; the new hook gets the call iff no earlier hook elects and it does |
| Hooks.HookManager.Declare | hub/main.py:3421-3427 | the function becomes hookable with no hooks |
| Hooks.HookManager.Register | hub/main.py:3466-3480 | an undeclared function gives InvalidHookError and changes nothing; otherwise the hook is appended |
| Hooks.HookManager.Execute | hub/main.py:3429-3464 | (corrected) the inspection loop computes the documented Executed, handing the electing hook the arguments as inspection left them |

## Left out

- I/O and concurrency. These are not modelled:
  - urlfetch and its asynchronous proxy;
  - the concurrent callbacks of `_handle_fetches` and `PushEventHandler.post`;
  - fetch deadlines;
  - memcache;
  - fork-join queue indexes and locking;
  - `HookManager.load`, which reads hook files and runs `exec`;
  - logging;
  - the stray `print` in `HookManager.execute`.

  Replies and failures are inputs instead.
- The `dos` scorers and samplers are a foreign module working with float
  percentages. Each scorer decision is a boolean input, and reporting back to
  the scorers is left out.
- Pulling.HandleFetch: models one work item. The batch loop over the feed
  list and the asynchronous callback wiring of `_handle_fetches` are left out.
- Events.DeliveryOutcome: the scorer pass and the asynchronous delivery
  callbacks of `PushEventHandler.post` are merged into one loop over the
  chunk. The reply to each delivery is an input.
- `sha1_hash`, `sha1_hmac` and the signature computation are uninterpreted
  functions. Nothing assumes they are injective, except where a lemma states
  it as a precondition.
- `feed_diff.filter` and `feed_identifier.identify` are oracles.
  `get_random_challenge` is an input.
- Times are integer seconds. The OverflowError guard in
  `EventToDeliver.update` is dropped, because unbounded integers cannot
  overflow.
- Text is `seq<char>` throughout. Unicode/UTF-8 conversions of parameters
  (`utf8encoded`, `unicode(...)`) are identity, except inside
  `normalize_iri`, where UTF-8 is modelled byte by byte.
- Common.UnicodeLower: folds only the characters whose lowercase is ASCII.
  Other non-ASCII capitals keep their case, so the lowered mode or verify
  type quoted in an error (BadMode, BadVerify) can differ from the code's;
  every comparison with `subscribe`, `unsubscribe`, `publish`, `sync` or
  `async`, and so every status, is the same.
- Publish.ReceivePublish, Confirmation.SubscribeSync,
  Confirmation.ConfirmTaskPost, Pulling.Pull, Events.DeliverChunk: run with
  the default hooks (`preprocess_urls`, `derive_sources`,
  `confirm_subscription`, `pull_feed_async`, `push_event`; hub/main.py:2319,
  2342, 2142, 2191, 2747, 2786, 2905), which leave the URLs unchanged,
  derive no sources and call the built-in functions. Custom hooks are not
  applied.
- Publish.FirstFailure: checks the published URLs in request order. The
  code iterates a set. The outcome is the same unless the URLs include both
  one that `urlparse` raises on and one `is_valid_url` rejects; then the
  set's order decides between 500 and 400.
- A `ValueError` escaping a handler is modelled as status 500, the answer
  of the web framework; its logging is left out.
- `FeedToFetch.insert` choosing the fork-join queue by the current queue
  name is not modelled. The batch is recorded without a queue name.
- `KnownFeedStats`, the template-rendering handlers, `work_queue_only`
  authorization, mapreduce reconfirmation and cleanup are left out. So are
  the subscriber and publisher sample applications.
- Parse.SaveParsed: an envelope error is an `Err` result. In the code it is
  an exception that escapes `parse_feed`.
- Parse.SaveParsed: the `inform_event` hook call is left out. Nothing comes
  back from it.
- Identity.FeedIdentityStore.ExpandIdentified: models the corrected second
  pass of `derive_additional_topics`. A topic whose feed id has no identity
  record maps to itself; the code (hub/main.py:1973) drops it.
  `Identity.DerivedTopicsAsWritten` is the code as written.
- Publish.ReceivePublish: builds on the corrected `derive_additional_topics`,
  so it also fetches known topics whose feed id has no identity record.
  `Publish.KnownPublishedTopicAsWritten` shows the code only loses such
  topics.
- Publish.KnownPublishedTopicIsFetched: holds for the corrected rule only.
  As written it holds for topics whose feed id has an identity record.
- Parse.SaveParsed: its put loop is the corrected one, which puts the
  rolled-back groups back in front. `Parse.PutAttemptsAsWritten` is the loop
  as written.
- Parse.ParseFeed: inherits the corrected put loop from `Parse.SaveParsed`.
- Pulling.HandleFetch: inherits the corrected put loop through
  `Parse.ParseFeed`.
- Confirmation.SubscribePost: a datastore or queue failure is one input
  decided before anything is written. In the code a `KnownFeed.record`
  failure after a confirmed sync subscribe (hub/main.py:2047-2051,
  1711-1722) answers 503 with the subscription already verified; the model
  does not produce that state.
- Confirmation.VerifyParams: the hub's query parameters are in a fixed order.
  The code urlencodes a dict (hub/main.py:2017-2030), whose order in Python 2
  follows the keys' hashes. `Confirmation.ConfirmSubscription`'s exact
  verification URL therefore fixes one parameter order.
- Response headers are a `map` with case-sensitive names. The code's headers
  object matches names regardless of case (hub/main.py:2467, 2488), so a
  reply spelling `location` or `content-type` in lower case is treated by
  the model as lacking the header. This affects `Pulling.Dispatch` and
  `Records.FeedRecord.Update`.

## Findings

| source | as written | input that shows it | evidently intended | confidence | as-written member | corrected member |
|---|---|---|---|---|---|---|
| hub/main.py:1930-1988 | `derive_additional_topics` leaves out a known topic whose feed id has no KnownFeedIdentity record. The docstring promises every known topic is in the output. | A KnownFeed for `http://example.com/feed` with feed id `tag:example.com,2009:feed` and no identity record. Publishing it fetches nothing. | Each known topic maps to at least itself. | not executed | Identity.DerivedTopicsAsWritten, Identity.AsWrittenDropsUnidentifiedTopic, Publish.KnownPublishedTopicAsWritten | Identity.DerivedTopics, Identity.DerivedTopicsAgree, Identity.FeedIdentityStore.DeriveAdditionalTopics, Identity.FeedIdentityStore.ExpandIdentified, Publish.ReceivePublish, Publish.KnownPublishedTopicIsFetched |
| hub/main.py:2637-2663 | The transaction pops groups off `all_entities` and puts each one. When a later group is too large it is split and the transaction raises. The groups popped earlier are rolled back but never put back in the list, so the next attempt commits without them. | Groups `[[a], [b, c]]` where only single entities fit: the retry writes `[b, c]`, and `a` is lost. | Every entity is written, or the put gives up. | not executed | Parse.PutAttemptsAsWritten, Parse.PutAsWrittenLosesEntities | Parse.PutAttempts, Parse.PutStoresEverything, Parse.PutEntities, Parse.StoreEntities, Parse.SaveUpdates, Parse.SaveParsed, Parse.Verdict, Parse.ParseFeed, Pulling.ParseAndSettle, Pulling.FetchAndSettle, Pulling.HandleFetch |
| hub/main.py:3429-3464 | `execute` calls the designated hook with the caller's original arguments. The copies the hooks' `inspect` calls modified are thrown away. | A hook whose `inspect` rewrites `"a"` to `"b"` and elects. It is called with `"a"`. | The Hook class documentation (hub/main.py:3332-3343) says the targeted hook receives the final set of parameters. | not executed | Hooks.ExecutedAsWritten, Hooks.ExecuteDropsRewrittenArgs | Hooks.Executed, Hooks.HookManager.Execute |
