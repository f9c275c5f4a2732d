/** find_feed_updates: which entries of a fetched feed are new or changed,
    judged against the FeedEntryRecords stored for the topic. The feed
    filter that splits a document into its header/footer and its entries is
    an oracle; the hash function (sha1_hash) is a parameter. */
module FeedDiff {
  import opened Common
  import Config

  /** What the feed filter makes of a document in one format: its
      header/footer and its entries as (entry id, entry XML) pairs in the
      order the filter's dictionary yields them, a parse error
      (xml.sax.SAXException or feed_diff.Error), or an unknown character
      encoding (LookupError). */
  datatype FilterResult =
    | Filtered(headerFooter: string, entries: seq<(string, string)>)
    | ParseError
    | EncodingError

  datatype DiffError = ParseFailed | UnknownEncoding

  /** A FeedEntryRecord: the content hash of an entry, stored under the hash
      of the topic and the hash of the entry id. */
  datatype EntryRecord = EntryRecord(topicHash: string, idHash: string, contentHash: string)

  /** The stored FeedEntryRecords: (topic hash, entry id hash) to content hash. */
  type EntryStore = map<(string, string), string>

  /** What find_feed_updates returns: the header/footer, the records to save
      and the payloads to deliver, the two lists in step. */
  datatype Updates = Updates(headerFooter: string, records: seq<EntryRecord>, payloads: seq<string>)

  function KeyOf(r: EntryRecord): (string, string)
  {
    (r.topicHash, r.idHash)
  }

  /** An entry is delivered when its id was never seen for this topic or
      its content hash differs from the stored one. */
  predicate Changed(stored: EntryStore, hash: string -> string, topic: string, e: (string, string))
  {
    var k := (hash(topic), hash(e.0));
    k !in stored || stored[k] != hash(e.1)
  }

  /** The entries of a feed no two of which share an id hash. */
  predicate IdHashesDistinct(hash: string -> string, es: seq<(string, string)>)
  {
    forall i, j :: 0 <= i < j < |es| ==> hash(es[i].0) != hash(es[j].0)
  }

  /** The changed entries, in feed order. */
  function ChangedEntries(stored: EntryStore, hash: string -> string, topic: string, es: seq<(string, string)>)
    : (r: seq<(string, string)>)
    ensures |r| <= |es|
    ensures forall e :: e in r <==> e in es && Changed(stored, hash, topic, e)
    ensures IdHashesDistinct(hash, es) ==> IdHashesDistinct(hash, r)
  {
    if es == [] then []
    else
      var init, last := es[..|es| - 1], es[|es| - 1];
      var rest := ChangedEntries(stored, hash, topic, init);
      assert es == init + [last];
      assert IdHashesDistinct(hash, es) ==> IdHashesDistinct(hash, init) && forall e :: e in init ==> hash(e.0) != hash(last.0);
      if Changed(stored, hash, topic, last) then rest + [last] else rest
  }

  /** `idx` lists, ascending, the positions in `es` of the elements of
      `r`, and every element of `es` that `keep` selects has its position
      listed. */
  ghost predicate PositionsOf<T>(idx: seq<nat>, r: seq<T>, es: seq<T>, keep: T -> bool)
  {
    && |idx| == |r|
    && (forall k :: 0 <= k < |idx| ==> idx[k] < |es| && r[k] == es[idx[k]])
    && (forall k, l :: 0 <= k < l < |idx| ==> idx[k] < idx[l])
    && (forall i :: 0 <= i < |es| && keep(es[i]) ==> i in idx)
  }

  /** Appending an element, kept or not, extends the positions. */
  lemma SnocPositions<T>(es: seq<T>, r0: seq<T>, rest: seq<nat>, keep: T -> bool)
    requires es != [] && PositionsOf(rest, r0, es[..|es| - 1], keep)
    ensures var last := es[|es| - 1];
      PositionsOf(if keep(last) then rest + [|es| - 1] else rest, if keep(last) then r0 + [last] else r0, es, keep)
  {
    var init, last := es[..|es| - 1], es[|es| - 1];
    var idx := if keep(last) then rest + [|es| - 1] else rest;
    var r := if keep(last) then r0 + [last] else r0;
    forall k | 0 <= k < |idx| ensures idx[k] < |es| && r[k] == es[idx[k]] {
      if k < |rest| {
        assert idx[k] == rest[k] && r[k] == r0[k] && init[rest[k]] == es[rest[k]];
      }
    }
    forall i | 0 <= i < |es| && keep(es[i]) ensures i in idx {
      if i < |es| - 1 {
        assert init[i] == es[i];
      } else {
        assert idx[|idx| - 1] == i;
      }
    }
  }

  /** The changed entries of a feed are those of all but its last entry,
      followed by the last one when it changed. */
  lemma ChangedEntriesSnoc(stored: EntryStore, hash: string -> string, topic: string, es: seq<(string, string)>)
    requires es != []
    ensures var last := es[|es| - 1];
      ChangedEntries(stored, hash, topic, es)
      == ChangedEntries(stored, hash, topic, es[..|es| - 1]) + (if Changed(stored, hash, topic, last) then [last] else [])
  {
  }

  /** The positions in the feed of the changed entries, ascending: the
      changed entries are the changed ones of the feed, each once, in feed
      order. */
  function ChangedPositions(stored: EntryStore, hash: string -> string, topic: string, es: seq<(string, string)>)
    : (idx: seq<nat>)
    ensures PositionsOf(idx, ChangedEntries(stored, hash, topic, es), es, e => Changed(stored, hash, topic, e))
  {
    if es == [] then []
    else
      var rest := ChangedPositions(stored, hash, topic, es[..|es| - 1]);
      ChangedEntriesSnoc(stored, hash, topic, es);
      SnocPositions(es, ChangedEntries(stored, hash, topic, es[..|es| - 1]), rest, e => Changed(stored, hash, topic, e));
      if Changed(stored, hash, topic, es[|es| - 1]) then rest + [|es| - 1] else rest
  }

  /** The record saved for an entry. */
  function RecordOf(hash: string -> string, topic: string, e: (string, string)): EntryRecord
  {
    EntryRecord(hash(topic), hash(e.0), hash(e.1))
  }

  function RecordsOf(hash: string -> string, topic: string, es: seq<(string, string)>): (r: seq<EntryRecord>)
    ensures |r| == |es| && forall i :: 0 <= i < |es| ==> r[i] == RecordOf(hash, topic, es[i])
  {
    if es == [] then [] else RecordsOf(hash, topic, es[..|es| - 1]) + [RecordOf(hash, topic, es[|es| - 1])]
  }

  function PayloadsOf(es: seq<(string, string)>): (r: seq<string>)
    ensures |r| == |es| && forall i :: 0 <= i < |es| ==> r[i] == es[i].1
  {
    if es == [] then [] else PayloadsOf(es[..|es| - 1]) + [es[|es| - 1].1]
  }

  lemma AppendOne(hash: string -> string, topic: string, es: seq<(string, string)>, e: (string, string))
    ensures RecordsOf(hash, topic, es + [e]) == RecordsOf(hash, topic, es) + [RecordOf(hash, topic, e)]
    ensures PayloadsOf(es + [e]) == PayloadsOf(es) + [e.1]
  {
    assert (es + [e])[..|es|] == es;
  }

  /** The store after a batch put of records, later ones written last. */
  function SaveRecords(stored: EntryStore, rs: seq<EntryRecord>): EntryStore
  {
    if rs == [] then stored else SaveRecords(stored, rs[..|rs| - 1])[KeyOf(rs[|rs| - 1]) := rs[|rs| - 1].contentHash]
  }

  /** The content hash the stored records give each entry id hash of a
      feed: existing_dict. */
  function Existing(stored: EntryStore, hash: string -> string, topic: string, ids: seq<string>): map<string, string>
  {
    map h | h in (set id | id in ids :: hash(id)) && (hash(topic), h) in stored :: stored[(hash(topic), h)]
  }

  /** The lookups of find_feed_updates, MAX_FEED_ENTRY_RECORD_LOOKUPS ids at
      a time: together they find the stored record of every entry id. */
  method LookupExisting(stored: EntryStore, hash: string -> string, topic: string, ids: seq<string>)
    returns (existing: map<string, string>)
    ensures existing == Existing(stored, hash, topic, ids)
  {
    var step := Config.MAX_FEED_ENTRY_RECORD_LOOKUPS;
    existing := map[];
    var position := 0;
    while position < |ids|
      invariant 0 <= position <= |ids|
      invariant existing == Existing(stored, hash, topic, ids[..position])
      decreases |ids| - position
    {
      var next := if position + step <= |ids| then position + step else |ids|;
      var keySet := ids[position..next];
      // One batch of FeedEntryRecord.get_entries_for_topic.
      existing := existing + Existing(stored, hash, topic, keySet);
      assert ids[..next] == ids[..position] + keySet;
      assert Existing(stored, hash, topic, ids[..next])
             == Existing(stored, hash, topic, ids[..position]) + Existing(stored, hash, topic, keySet);
      position := next;
    }
    assert ids[..position] == ids;
  }

  function Ids(es: seq<(string, string)>): (r: seq<string>)
    ensures |r| == |es| && forall i :: 0 <= i < |es| ==> r[i] == es[i].0
  {
    if es == [] then [] else [es[0].0] + Ids(es[1..])
  }

  /** The diff proper: a record and a payload for exactly the changed
      entries, in feed order. */
  method DiffEntries(stored: EntryStore, hash: string -> string, topic: string, entries: seq<(string, string)>)
    returns (records: seq<EntryRecord>, payloads: seq<string>)
    ensures records == RecordsOf(hash, topic, ChangedEntries(stored, hash, topic, entries))
    ensures payloads == PayloadsOf(ChangedEntries(stored, hash, topic, entries))
  {
    var existing := LookupExisting(stored, hash, topic, Ids(entries));
    records := [];
    payloads := [];
    var i := 0;
    while i < |entries|
      invariant 0 <= i <= |entries|
      invariant records == RecordsOf(hash, topic, ChangedEntries(stored, hash, topic, entries[..i]))
      invariant payloads == PayloadsOf(ChangedEntries(stored, hash, topic, entries[..i]))
    {
      var (entryId, newContent) := entries[i];
      var newContentHash := hash(newContent);
      var newEntryIdHash := hash(entryId);
      DiffStep(stored, hash, topic, entries, existing, i);
      if !(newEntryIdHash in existing && existing[newEntryIdHash] == newContentHash) {
        payloads := payloads + [newContent];
        records := records + [EntryRecord(hash(topic), newEntryIdHash, newContentHash)];
      }
      i := i + 1;
    }
    assert entries[..i] == entries;
  }

  /** What find_feed_updates answers for one format: for the arbitrary
      format the content itself with no entries; otherwise the filter's
      error, or its header/footer with one record and one payload, at the
      same position, for each changed entry in feed order (ChangedEntries
      holds exactly the changed ones). */
  function FeedUpdates(stored: EntryStore, hash: string -> string, topic: string, format: Config.Format,
                       content: string, filter: Config.Format -> FilterResult): (r: Result<Updates, DiffError>)
    ensures format == Config.Arbitrary ==> r == Ok(Updates(content, [], []))
    ensures format != Config.Arbitrary ==>
              && (r == Err(ParseFailed) <==> filter(format).ParseError?)
              && (r == Err(UnknownEncoding) <==> filter(format).EncodingError?)
              && (r.Ok? <==> filter(format).Filtered?)
    ensures r.Ok? ==> |r.value.records| == |r.value.payloads|
    ensures r.Ok? && format != Config.Arbitrary ==>
      var changed := ChangedEntries(stored, hash, topic, filter(format).entries);
      && r.value.headerFooter == filter(format).headerFooter
      && |r.value.records| == |changed|
      && forall i :: 0 <= i < |changed| ==>
           r.value.records[i] == RecordOf(hash, topic, changed[i]) && r.value.payloads[i] == changed[i].1
  {
    if format == Config.Arbitrary then Ok(Updates(content, [], []))
    else
      match filter(format)
      case ParseError => Err(ParseFailed)
      case EncodingError => Err(UnknownEncoding)
      case Filtered(headerFooter, entries) =>
        var changed := ChangedEntries(stored, hash, topic, entries);
        Ok(Updates(headerFooter, RecordsOf(hash, topic, changed), PayloadsOf(changed)))
  }

  /** find_feed_updates. */
  method FindFeedUpdates(stored: EntryStore, hash: string -> string, topic: string, format: Config.Format,
                         content: string, filter: Config.Format -> FilterResult)
    returns (r: Result<Updates, DiffError>)
    ensures r == FeedUpdates(stored, hash, topic, format, content, filter)
  {
    if format == Config.Arbitrary {
      return Ok(Updates(content, [], []));
    }
    match filter(format)
    case ParseError => return Err(ParseFailed);
    case EncodingError => return Err(UnknownEncoding);
    case Filtered(headerFooter, entries) =>
      var records, payloads := DiffEntries(stored, hash, topic, entries);
      r := Ok(Updates(headerFooter, records, payloads));
  }

  lemma ExistingLookup(stored: EntryStore, hash: string -> string, topic: string, ids: seq<string>,
                       existing: map<string, string>, i: nat)
    requires existing == Existing(stored, hash, topic, ids) && i < |ids|
    ensures var k := (hash(topic), hash(ids[i]));
      && (hash(ids[i]) in existing <==> k in stored)
      && (k in stored ==> existing[hash(ids[i])] == stored[k])
  {
    assert hash(ids[i]) in (set id | id in ids :: hash(id));
  }

  /** One step of the diff loop: an entry the lookup does not match extends
      the records and payloads by its own; any other leaves them as they
      were. */
  lemma DiffStep(stored: EntryStore, hash: string -> string, topic: string, entries: seq<(string, string)>,
                 existing: map<string, string>, i: nat)
    requires existing == Existing(stored, hash, topic, Ids(entries)) && i < |entries|
    ensures var prev := ChangedEntries(stored, hash, topic, entries[..i]);
      var next := ChangedEntries(stored, hash, topic, entries[..i + 1]);
      var e := entries[i];
      var changed := !(hash(e.0) in existing && existing[hash(e.0)] == hash(e.1));
      && (changed ==> RecordsOf(hash, topic, next) == RecordsOf(hash, topic, prev) + [EntryRecord(hash(topic), hash(e.0), hash(e.1))]
                      && PayloadsOf(next) == PayloadsOf(prev) + [e.1])
      && (!changed ==> next == prev)
  {
    ExistingLookup(stored, hash, topic, Ids(entries), existing, i);
    ChangedStep(stored, hash, topic, entries, i);
    AppendOne(hash, topic, ChangedEntries(stored, hash, topic, entries[..i]), entries[i]);
  }

  lemma ChangedStep(stored: EntryStore, hash: string -> string, topic: string, es: seq<(string, string)>, i: nat)
    requires i < |es|
    ensures ChangedEntries(stored, hash, topic, es[..i + 1])
            == ChangedEntries(stored, hash, topic, es[..i])
               + (if Changed(stored, hash, topic, es[i]) then [es[i]] else [])
  {
    assert es[..i + 1][..i] == es[..i];
  }

  lemma {:induction false} NoneChanged(stored: EntryStore, hash: string -> string, topic: string, es: seq<(string, string)>)
    requires forall e :: e in es ==> !Changed(stored, hash, topic, e)
    ensures ChangedEntries(stored, hash, topic, es) == []
  {
    if es != [] {
      NoneChanged(stored, hash, topic, es[..|es| - 1]);
    }
  }

  /** Saving records whose keys differ gives each of them its content hash
      and leaves every other key alone. */
  lemma {:induction false} SavedLookup(stored: EntryStore, rs: seq<EntryRecord>, k: (string, string))
    requires forall i, j :: 0 <= i < j < |rs| ==> KeyOf(rs[i]) != KeyOf(rs[j])
    ensures (forall i :: 0 <= i < |rs| ==> KeyOf(rs[i]) != k) ==>
              (k in SaveRecords(stored, rs) <==> k in stored)
              && (k in stored ==> SaveRecords(stored, rs)[k] == stored[k])
    ensures forall i :: 0 <= i < |rs| && KeyOf(rs[i]) == k ==>
              k in SaveRecords(stored, rs) && SaveRecords(stored, rs)[k] == rs[i].contentHash
  {
    if rs != [] {
      SavedLookup(stored, rs[..|rs| - 1], k);
    }
  }

  /** Re-reading a feed right after its changes were saved finds nothing
      new: an unchanged feed produces no event. */
  lemma NoChangeAfterSave(stored: EntryStore, hash: string -> string, topic: string, es: seq<(string, string)>)
    requires IdHashesDistinct(hash, es)
    ensures var changed := ChangedEntries(stored, hash, topic, es);
      ChangedEntries(SaveRecords(stored, RecordsOf(hash, topic, changed)), hash, topic, es) == []
  {
    var changed := ChangedEntries(stored, hash, topic, es);
    var rs := RecordsOf(hash, topic, changed);
    var saved := SaveRecords(stored, rs);
    forall e | e in es ensures !Changed(saved, hash, topic, e) {
      var k := (hash(topic), hash(e.0));
      SavedLookup(stored, rs, k);
      if e in changed {
        var i :| 0 <= i < |changed| && changed[i] == e;
        assert KeyOf(rs[i]) == k;
      } else {
        forall i | 0 <= i < |rs| ensures KeyOf(rs[i]) != k {
          assert changed[i] in es && changed[i] != e;
          var a :| 0 <= a < |es| && es[a] == changed[i];
          var b :| 0 <= b < |es| && es[b] == e;
          assert a != b;
        }
      }
    }
    NoneChanged(saved, hash, topic, es);
  }
}
