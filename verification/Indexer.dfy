// The embedding indexer: batches of events become stored vectors and entries
// of the live index, which must stay what a rebuild from the store would give.

module Indexer {
  import opened Wrappers
  import Sorting
  import opened Codec
  import opened VectorMath
  import opened EmbeddingStore
  import opened MemoryIndex

  const MIN_CONTENT_LEN := 5
  const BATCH_SIZE := 16

  datatype Kind = UserMessage | AssistantMessage | OtherEvent

  type Text = seq<Byte>

  datatype Event = Event(id: string, sessionKey: string, kind: Kind, content: Text)

  /** What one call of the embedding provider answers for a batch of texts. */
  type Provider = seq<Text> -> Result<seq<seq<Word>>, string>

  datatype IndexerError = ProviderFailed(reason: string) | StoreFailed(store: StoreError) | IndexFailed(index: IndexError)

  /** What the two tiers were built with. */
  datatype Setup = Setup(sqrt: real -> real, value: Reading, storeDim: nat, indexDim: nat)

  datatype Tiers = Tiers(rows: seq<Row>, entries: Entries)

  type Stored = map<string, seq<Word>>

  /** One embedding per text. */
  ghost predicate Complete(provider: Provider) {
    forall texts :: provider(texts).Ok? ==> |provider(texts).value| == |texts|
  }

  // ---------------------------------------------------------------------
  // One batch
  // ---------------------------------------------------------------------

  predicate Eligible(e: Event) { !e.kind.OtherEvent? && |e.content| >= MIN_CONTENT_LEN }

  function Tag(k: Kind): string { if k.UserMessage? then "user_message" else "assistant_message" }

  predicate Mentions(events: seq<Event>, id: string) { exists i :: 0 <= i < |events| && events[i].id == id }

  /** The eligible events, one per id. */
  function Distinct(events: seq<Event>): seq<Event> {
    if events == [] then []
    else
      var before := Distinct(events[..|events| - 1]);
      var e := events[|events| - 1];
      if Eligible(e) && !Mentions(before, e.id) then before + [e] else before
  }

  function NotStored(rows: seq<Row>, events: seq<Event>): seq<Event> {
    if events == [] then []
    else
      NotStored(rows, events[..|events| - 1]) +
      if HasId(rows, events[|events| - 1].id) then [] else [events[|events| - 1]]
  }

  /** The events of a batch that are still to be embedded. */
  function ToEmbed(rows: seq<Row>, events: seq<Event>): seq<Event> { NotStored(rows, Distinct(events)) }

  function Texts(events: seq<Event>): (t: seq<Text>)
    ensures |t| == |events| && forall i :: 0 <= i < |t| ==> t[i] == events[i].content
  {
    seq(|events|, i requires 0 <= i < |events| => events[i].content)
  }

  function RecordOf(e: Event, vector: seq<Word>): Record { Record(e.id, e.sessionKey, vector, Tag(e.kind)) }

  function Records(events: seq<Event>, vectors: seq<seq<Word>>): (r: seq<Record>)
    requires |events| == |vectors|
    ensures |r| == |events| && forall i :: 0 <= i < |r| ==> r[i] == RecordOf(events[i], vectors[i])
  {
    seq(|events|, i requires 0 <= i < |events| => RecordOf(events[i], vectors[i]))
  }

  function Unit(s: Setup, v: seq<Word>): Vector { Normalized(s.sqrt, Values(s.value, v)) }

  /** Each record in turn overwrites its entry. */
  function Indexed(s: Setup, entries: Entries, items: seq<Record>): Entries {
    if items == [] then entries
    else Indexed(s, entries, items[..|items| - 1])[items[|items| - 1].id := Unit(s, items[|items| - 1].vector)]
  }

  /** What processing a batch does to the two tiers. */
  ghost function Processed(s: Setup, t: Tiers, events: seq<Event>, provider: Provider, now: int): Tiers
    requires Complete(provider)
  {
    var pending := ToEmbed(t.rows, events);
    if pending == [] || provider(Texts(pending)).Err? then t
    else
      var items := Records(pending, provider(Texts(pending)).value);
      if !Fits(items, s.storeDim) then t
      else Tiers(Saved(t.rows, items, now), if s.indexDim == s.storeDim then Indexed(s, t.entries, items) else t.entries)
  }

  /** Whether a batch goes through. */
  ghost predicate Succeeds(s: Setup, t: Tiers, events: seq<Event>, provider: Provider)
    requires Complete(provider)
  {
    var pending := ToEmbed(t.rows, events);
    pending == [] ||
    (provider(Texts(pending)).Ok? &&
     Fits(Records(pending, provider(Texts(pending)).value), s.storeDim) && s.indexDim == s.storeDim)
  }

  ghost predicate BuiltWith(s: Setup, store: EmbeddingStore, index: MemoryIndex) {
    && s == Setup(store.sqrt, store.value, store.dim, index.dim)
    && index.sqrt == store.sqrt
  }

  ghost function TiersOf(store: EmbeddingStore, index: MemoryIndex): Tiers
    requires index.Valid()
    reads store, index
  {
    Tiers(store.rows, index.Contents())
  }

  method SelectCandidates(events: seq<Event>) returns (candidates: seq<Event>)
    ensures candidates == Distinct(events)
  {
    var seen: set<string> := {};
    candidates := [];
    for i := 0 to |events|
      invariant candidates == Distinct(events[..i])
      invariant forall id :: id in seen <==> Mentions(candidates, id)
    {
      assert events[..i + 1][..i] == events[..i];
      var e := events[i];
      if e.kind.OtherEvent? { continue; }
      if |e.content| < MIN_CONTENT_LEN { continue; }
      if e.id in seen { continue; }
      ghost var before := candidates;
      seen := seen + {e.id};
      candidates := candidates + [e];
      forall id ensures Mentions(candidates, id) <==> Mentions(before, id) || id == e.id {
        MentionsPush(before, e, id);
      }
    }
    assert events[..|events|] == events;
  }

  lemma MentionsPush(events: seq<Event>, e: Event, id: string)
    ensures Mentions(events + [e], id) <==> Mentions(events, id) || id == e.id
  {
    var all := events + [e];
    if Mentions(events, id) {
      var i :| 0 <= i < |events| && events[i].id == id;
      assert all[i].id == id;
    }
    if id == e.id { assert all[|events|].id == id; }
  }

  method SkipStored(store: EmbeddingStore, candidates: seq<Event>) returns (pending: seq<Event>)
    ensures pending == NotStored(store.rows, candidates)
  {
    pending := [];
    for i := 0 to |candidates|
      invariant pending == NotStored(store.rows, candidates[..i])
    {
      assert candidates[..i + 1][..i] == candidates[..i];
      var found := store.Exists(candidates[i].id);
      if found { continue; }
      pending := pending + [candidates[i]];
    }
    assert candidates[..|candidates|] == candidates;
  }

  /** The index takes all of the records, or none when its dimension differs from the records'. */
  method UpdateIndex(s: Setup, store: EmbeddingStore, index: MemoryIndex, items: seq<Record>) returns (r: Result<(), IndexError>)
    requires index.Valid() && BuiltWith(s, store, index) && Fits(items, s.storeDim) && items != []
    modifies index
    ensures index.Valid()
    ensures r.Ok? <==> s.indexDim == s.storeDim
    ensures index.Contents() == if s.indexDim == s.storeDim then Indexed(s, old(index.Contents()), items) else old(index.Contents())
  {
    for i := 0 to |items|
      invariant index.Valid()
      invariant i > 0 ==> s.indexDim == s.storeDim
      invariant index.Contents() == Indexed(s, old(index.Contents()), items[..i])
    {
      assert items[..i + 1][..i] == items[..i];
      r := index.Insert(items[i].id, Values(s.value, items[i].vector));
      if r.Err? {
        return;
      }
    }
    assert items[..|items|] == items;
    r := Ok(());
  }

  method ProcessBatch(s: Setup, store: EmbeddingStore, index: MemoryIndex, events: seq<Event>, provider: Provider, now: int)
    returns (r: Result<(), IndexerError>)
    requires store.Valid() && index.Valid() && BuiltWith(s, store, index) && Complete(provider)
    modifies store, index
    ensures store.Valid() && index.Valid()
    ensures TiersOf(store, index) == Processed(s, old(TiersOf(store, index)), events, provider, now)
    ensures r.Ok? <==> Succeeds(s, old(TiersOf(store, index)), events, provider)
    ensures var answer := provider(Texts(ToEmbed(old(store.rows), events)));
            r.Err? ==> && (answer.Err? ==> r.error == ProviderFailed(answer.error))
                       && (answer.Ok? ==> !r.error.ProviderFailed?)
                       && (r.error.IndexFailed? ==> s.indexDim != s.storeDim)
                       && (r.error.StoreFailed? ==> store.rows == old(store.rows))
  {
    var candidates := SelectCandidates(events);
    var pending := SkipStored(store, candidates);
    if pending == [] {
      return Ok(());
    }
    var answer := provider(Texts(pending));
    if answer.Err? {
      return Err(ProviderFailed(answer.error));
    }
    var items := Records(pending, answer.value);
    var saved := store.SaveBatch(items, now);
    if saved.Err? {
      return Err(StoreFailed(saved.error));
    }
    var indexed := UpdateIndex(s, store, index, items);
    if indexed.Err? {
      return Err(IndexFailed(indexed.error));
    }
    r := Ok(());
  }

  // ---------------------------------------------------------------------
  // Rebuilding the index
  // ---------------------------------------------------------------------

  ghost function Rebuilt(s: Setup, entries: Entries, loaded: seq<StoredEmbedding>): Entries {
    if loaded == [] then entries
    else Rebuilt(s, entries, loaded[..|loaded| - 1])[loaded[|loaded| - 1].id := Unit(s, loaded[|loaded| - 1].vector)]
  }

  /** The rows a rebuild reads. */
  function Chosen(rows: seq<Row>, limit: Option<nat>): seq<Row> {
    if limit.Some? then Recent(rows, limit.value) else rows
  }

  lemma RebuiltPush(s: Setup, entries: Entries, loaded: seq<StoredEmbedding>, i: nat)
    requires i < |loaded|
    ensures Rebuilt(s, entries, loaded[..i + 1]) == Rebuilt(s, entries, loaded[..i])[loaded[i].id := Unit(s, loaded[i].vector)]
  {
    assert loaded[..i + 1][..i] == loaded[..i];
  }

  method InsertLoaded(s: Setup, index: MemoryIndex, loaded: seq<StoredEmbedding>) returns (r: Result<(), IndexError>)
    requires index.Valid() && index.sqrt == s.sqrt && index.dim == s.indexDim
    modifies index
    ensures index.Valid()
    ensures r.Ok? <==> forall i :: 0 <= i < |loaded| ==> |loaded[i].vector| == s.indexDim
    ensures r.Ok? ==> index.Contents() == Rebuilt(s, old(index.Contents()), loaded)
  {
    for i := 0 to |loaded|
      invariant index.Valid()
      invariant forall j :: 0 <= j < i ==> |loaded[j].vector| == s.indexDim
      invariant index.Contents() == Rebuilt(s, old(index.Contents()), loaded[..i])
    {
      RebuiltPush(s, old(index.Contents()), loaded, i);
      r := index.Insert(loaded[i].id, Values(s.value, loaded[i].vector));
      if r.Err? {
        return;
      }
    }
    assert loaded[..|loaded|] == loaded;
    r := Ok(());
  }

  /** A cold start: everything, or the most recent rows only. */
  method RebuildIndex(s: Setup, store: EmbeddingStore, index: MemoryIndex, limit: Option<nat>) returns (r: Result<nat, IndexError>)
    requires index.Valid() && BuiltWith(s, store, index)
    modifies index
    ensures index.Valid()
    ensures var loaded := Loaded(Chosen(store.rows, limit));
            && (r.Ok? <==> forall i :: 0 <= i < |loaded| ==> |loaded[i].vector| == s.indexDim)
            && (r.Ok? ==> r.value == |loaded| && index.Contents() == Rebuilt(s, old(index.Contents()), loaded))
  {
    var loaded;
    if limit.Some? {
      loaded := store.LoadRecent(limit.value);
    } else {
      loaded := store.LoadAll();
    }
    var inserted := InsertLoaded(s, index, loaded);
    if inserted.Err? {
      return Err(inserted.error);
    }
    r := Ok(|loaded|);
  }

  /** The index that belongs to stored vectors. */
  ghost function UnitEntries(s: Setup, stored: Stored): Entries {
    map id | id in stored :: Unit(s, stored[id])
  }

  /** A rebuild from scratch normalises what the readable rows hold. */
  lemma {:induction false} RebuildReadsStore(s: Setup, rows: seq<Row>)
    ensures Rebuilt(s, map[], Loaded(rows)) == UnitEntries(s, Vectors(rows))
  {
    if rows != [] {
      var front, last := rows[..|rows| - 1], rows[|rows| - 1];
      RebuildReadsStore(s, front);
      if Readable(last) {
        var item := StoredEmbedding(last.id, last.sessionKey, Decode(last.blob), last.eventType, last.createdAt);
        assert Loaded(rows) == Loaded(front) + [item];
        assert (Loaded(front) + [item])[..|Loaded(front)|] == Loaded(front);
      } else {
        assert Loaded(rows) == Loaded(front);
      }
    }
  }

  // ---------------------------------------------------------------------
  // The tiers stay in step
  // ---------------------------------------------------------------------

  /** The store holds whole vectors, one per id, and the index some of them, normalised. */
  ghost predicate PartOf(s: Setup, t: Tiers) {
    && s.indexDim == s.storeDim
    && UniqueKeys(t.rows) && Intact(t.rows, s.storeDim)
    && Matches(s, t.entries, Vectors(t.rows))
  }

  ghost predicate Matches(s: Setup, entries: Entries, stored: Stored) {
    forall id :: id in entries ==> id in stored && entries[id] == Unit(s, stored[id])
  }

  /** The index holds all of them. */
  ghost predicate InStep(s: Setup, t: Tiers) {
    PartOf(s, t) && t.entries == UnitEntries(s, Vectors(t.rows))
  }

  /** A cold start loads part of the store, and all of it without a limit or with one that is large enough. */
  lemma ColdStartIsPart(s: Setup, rows: seq<Row>, limit: Option<nat>)
    requires s.indexDim == s.storeDim && UniqueKeys(rows) && Intact(rows, s.storeDim)
    ensures var t := Tiers(rows, Rebuilt(s, map[], Loaded(Chosen(rows, limit))));
            PartOf(s, t) && (limit.None? || limit.value >= |rows| ==> InStep(s, t))
  {
    var chosen := Chosen(rows, limit);
    RebuildReadsStore(s, chosen);
    if limit.Some? {
      RecentRows(rows, limit.value);
      forall id | id in Vectors(chosen) ensures id in Vectors(rows) && Vectors(rows)[id] == Vectors(chosen)[id] {
        VectorsOfPart(chosen, rows, id);
      }
      if limit.value >= |rows| { AllAreRecent(rows, limit.value); }
    }
  }

  lemma AllAreRecent(rows: seq<Row>, limit: nat)
    requires UniqueKeys(rows) && limit >= |rows|
    ensures Vectors(Recent(rows, limit)) == Vectors(rows)
  {
    RecentRows(rows, limit);
    var sorted := Sorting.Sort(Newer, rows);
    Sorting.SortLength(Newer, rows);
    Sorting.SortPermutes(Newer, rows);
    forall r ensures r in sorted <==> r in rows { assert r in multiset(sorted) <==> r in multiset(rows); }
    VectorsOfSame(sorted, rows);
  }

  ghost predicate DistinctEvents(events: seq<Event>) {
    forall i, j :: 0 <= i < j < |events| ==> events[i].id != events[j].id
  }

  lemma {:induction false} DistinctIsDistinct(events: seq<Event>)
    ensures DistinctEvents(Distinct(events))
  {
    if events != [] { DistinctIsDistinct(events[..|events| - 1]); }
  }

  lemma {:induction false} NotStoredKeeps(rows: seq<Row>, events: seq<Event>)
    requires DistinctEvents(events)
    ensures DistinctEvents(NotStored(rows, events))
    ensures forall i :: 0 <= i < |NotStored(rows, events)| ==> !HasId(rows, NotStored(rows, events)[i].id)
    ensures forall x :: x in NotStored(rows, events) ==> x in events
  {
    if events != [] {
      var front, last := events[..|events| - 1], events[|events| - 1];
      NotStoredKeeps(rows, front);
      forall x | x in NotStored(rows, front) ensures x.id != last.id {
        assert x in front;
      }
    }
  }

  ghost predicate NewRecords(stored: Stored, items: seq<Record>) {
    && (forall i :: 0 <= i < |items| ==> items[i].id !in stored)
    && (forall i, j :: 0 <= i < j < |items| ==> items[i].id != items[j].id)
  }

  lemma {:induction false} FirstWinsKeys(stored: Stored, items: seq<Record>, id: string)
    ensures id in FirstWins(stored, items) <==> id in stored || exists i :: 0 <= i < |items| && items[i].id == id
  {
    if items != [] {
      var n := |items| - 1;
      FirstWinsKeys(stored, items[..n], id);
      if items[n].id == id { assert items[n].id == id; }
      if exists i :: 0 <= i < n && items[..n][i].id == id {
        var i :| 0 <= i < n && items[..n][i].id == id;
        assert items[i].id == id;
      }
    }
  }

  lemma UnitEntriesUpdate(s: Setup, stored: Stored, id: string, v: seq<Word>)
    ensures UnitEntries(s, stored[id := v]) == UnitEntries(s, stored)[id := Unit(s, v)]
  {
  }

  /** For new records, first wins in the store and last wins in the index come to the same. */
  lemma {:induction false} IndexedFollowsStore(s: Setup, stored: Stored, items: seq<Record>)
    requires NewRecords(stored, items)
    ensures Indexed(s, UnitEntries(s, stored), items) == UnitEntries(s, FirstWins(stored, items))
  {
    if items != [] {
      var front, item := items[..|items| - 1], items[|items| - 1];
      IndexedFollowsStore(s, stored, front);
      FirstWinsKeys(stored, front, item.id);
      UnitEntriesUpdate(s, FirstWins(stored, front), item.id, item.vector);
    }
  }

  lemma {:induction false} NewRecordsArrive(stored: Stored, items: seq<Record>)
    requires NewRecords(stored, items)
    ensures forall id :: id in stored ==> id in FirstWins(stored, items) && FirstWins(stored, items)[id] == stored[id]
    ensures forall i :: 0 <= i < |items| ==>
              items[i].id in FirstWins(stored, items) && FirstWins(stored, items)[items[i].id] == items[i].vector
  {
    if items != [] {
      var front, item := items[..|items| - 1], items[|items| - 1];
      NewRecordsArrive(stored, front);
      FirstWinsKeys(stored, front, item.id);
    }
  }

  /** Having indexed some of the saved records, the index still holds only what the store holds. */
  lemma {:induction false} IndexedMatches(s: Setup, entries: Entries, stored: Stored, items: seq<Record>, k: nat)
    requires NewRecords(stored, items) && Matches(s, entries, stored) && k <= |items|
    ensures Matches(s, Indexed(s, entries, items[..k]), FirstWins(stored, items))
  {
    NewRecordsArrive(stored, items);
    if k > 0 {
      IndexedMatches(s, entries, stored, items, k - 1);
      assert items[..k][..k - 1] == items[..k - 1];
    }
  }

  lemma PendingAreNew(s: Setup, t: Tiers, events: seq<Event>, items: seq<Record>)
    requires PartOf(s, t) && |items| == |ToEmbed(t.rows, events)|
    requires forall i :: 0 <= i < |items| ==> items[i].id == ToEmbed(t.rows, events)[i].id
    ensures NewRecords(Vectors(t.rows), items)
  {
    DistinctIsDistinct(events);
    NotStoredKeeps(t.rows, Distinct(events));
    forall i | 0 <= i < |items| ensures items[i].id !in Vectors(t.rows) {
      IntactIds(t.rows, s.storeDim, items[i].id);
    }
  }

  /** Within a batch, from the commit to the last index update, the index is still part of the store. */
  lemma MidBatchIsPart(s: Setup, t: Tiers, events: seq<Event>, items: seq<Record>, now: int, k: nat)
    requires PartOf(s, t) && Fits(items, s.storeDim) && |items| == |ToEmbed(t.rows, events)| && k <= |items|
    requires forall i :: 0 <= i < |items| ==> items[i].id == ToEmbed(t.rows, events)[i].id
    ensures PartOf(s, Tiers(Saved(t.rows, items, now), Indexed(s, t.entries, items[..k])))
  {
    PendingAreNew(s, t, events, items);
    SavedKeepsKeys(t.rows, items, now, s.storeDim);
    SavedReadsBack(t.rows, items, now, s.storeDim);
    IndexedMatches(s, t.entries, Vectors(t.rows), items, k);
  }

  lemma SavedStaysInStep(s: Setup, t: Tiers, events: seq<Event>, items: seq<Record>, now: int)
    requires PartOf(s, t) && Fits(items, s.storeDim) && |items| == |ToEmbed(t.rows, events)|
    requires forall i :: 0 <= i < |items| ==> items[i].id == ToEmbed(t.rows, events)[i].id
    ensures PartOf(s, Tiers(Saved(t.rows, items, now), Indexed(s, t.entries, items)))
    ensures InStep(s, t) ==> InStep(s, Tiers(Saved(t.rows, items, now), Indexed(s, t.entries, items)))
  {
    assert items[..|items|] == items;
    MidBatchIsPart(s, t, events, items, now, |items|);
    if InStep(s, t) {
      PendingAreNew(s, t, events, items);
      SavedReadsBack(t.rows, items, now, s.storeDim);
      IndexedFollowsStore(s, Vectors(t.rows), items);
    }
  }

  /** No batch, successful or failed, takes the tiers out of step, or the index beyond the store. */
  lemma BatchKeepsInStep(s: Setup, t: Tiers, events: seq<Event>, provider: Provider, now: int)
    requires PartOf(s, t) && Complete(provider)
    ensures PartOf(s, Processed(s, t, events, provider, now))
    ensures InStep(s, t) ==> InStep(s, Processed(s, t, events, provider, now))
  {
    var pending := ToEmbed(t.rows, events);
    if pending != [] && provider(Texts(pending)).Ok? {
      var items := Records(pending, provider(Texts(pending)).value);
      if Fits(items, s.storeDim) {
        SavedStaysInStep(s, t, events, items, now);
      }
    }
  }

  // ---------------------------------------------------------------------
  // What batches mean
  // ---------------------------------------------------------------------

  /** One event at a time: an eligible event with a new id is embedded and stored. */
  function Absorb(embed: Text -> seq<Word>, stored: Stored, events: seq<Event>): Stored {
    if events == [] then stored
    else
      var before := Absorb(embed, stored, events[..|events| - 1]);
      var e := events[|events| - 1];
      if Eligible(e) && e.id !in before then before[e.id := embed(e.content)] else before
  }

  /** The provider may fail, but what it answers is each text's embedding. */
  ghost predicate Honest(provider: Provider, embed: Text -> seq<Word>) {
    forall texts :: provider(texts).Ok? ==>
      |provider(texts).value| == |texts| &&
      forall i :: 0 <= i < |texts| ==> provider(texts).value[i] == embed(texts[i])
  }

  function Embedded(embed: Text -> seq<Word>, events: seq<Event>): seq<Record> {
    if events == [] then []
    else Embedded(embed, events[..|events| - 1]) + [RecordOf(events[|events| - 1], embed(events[|events| - 1].content))]
  }

  lemma {:induction false} EmbeddedAt(embed: Text -> seq<Word>, events: seq<Event>)
    ensures |Embedded(embed, events)| == |events|
    ensures forall i :: 0 <= i < |events| ==> Embedded(embed, events)[i] == RecordOf(events[i], embed(events[i].content))
  {
    if events != [] { EmbeddedAt(embed, events[..|events| - 1]); }
  }

  lemma {:induction false} NotStoredMentions(rows: seq<Row>, events: seq<Event>, id: string)
    ensures Mentions(NotStored(rows, events), id) <==> Mentions(events, id) && !HasId(rows, id)
  {
    if events != [] {
      var front, last := events[..|events| - 1], events[|events| - 1];
      NotStoredMentions(rows, front, id);
      assert events == front + [last];
      MentionsPush(front, last, id);
      MentionsPush(NotStored(rows, front), last, id);
      assert NotStored(rows, front) + [] == NotStored(rows, front);
    }
  }

  lemma EmbeddedKeys(embed: Text -> seq<Word>, stored: Stored, events: seq<Event>, id: string)
    ensures id in FirstWins(stored, Embedded(embed, events)) <==> id in stored || Mentions(events, id)
  {
    FirstWinsKeys(stored, Embedded(embed, events), id);
    EmbeddedAt(embed, events);
    if Mentions(events, id) {
      var i :| 0 <= i < |events| && events[i].id == id;
      assert Embedded(embed, events)[i].id == id;
    }
  }

  /** Dropping duplicates and stored events before embedding changes nothing about the outcome. */
  lemma {:induction false} EmbedsWhatAbsorbs(embed: Text -> seq<Word>, rows: seq<Row>, dim: nat, events: seq<Event>)
    requires UniqueKeys(rows) && Intact(rows, dim)
    ensures FirstWins(Vectors(rows), Embedded(embed, ToEmbed(rows, events))) == Absorb(embed, Vectors(rows), events)
  {
    if events != [] {
      EmbedsWhatAbsorbs(embed, rows, dim, events[..|events| - 1]);
      OneMoreEvent(embed, rows, dim, events);
    }
  }

  lemma OneMoreEvent(embed: Text -> seq<Word>, rows: seq<Row>, dim: nat, events: seq<Event>)
    requires UniqueKeys(rows) && Intact(rows, dim) && events != []
    ensures var front, e := events[..|events| - 1], events[|events| - 1];
            var before := FirstWins(Vectors(rows), Embedded(embed, ToEmbed(rows, front)));
            FirstWins(Vectors(rows), Embedded(embed, ToEmbed(rows, events))) ==
            if Eligible(e) && e.id !in before then before[e.id := embed(e.content)] else before
  {
    var front, e := events[..|events| - 1], events[|events| - 1];
    IntactIds(rows, dim, e.id);
    EmbeddedKeys(embed, Vectors(rows), ToEmbed(rows, front), e.id);
    NotStoredMentions(rows, Distinct(front), e.id);
    if Eligible(e) && !Mentions(Distinct(front), e.id) {
      NotStoredPush(rows, Distinct(front), e);
      if !HasId(rows, e.id) {
        EmbeddedPush(embed, Vectors(rows), ToEmbed(rows, front), e);
      }
    }
  }

  lemma NotStoredPush(rows: seq<Row>, events: seq<Event>, e: Event)
    ensures NotStored(rows, events + [e]) == if HasId(rows, e.id) then NotStored(rows, events) else NotStored(rows, events) + [e]
  {
    assert (events + [e])[..|events|] == events;
  }

  lemma EmbeddedPush(embed: Text -> seq<Word>, stored: Stored, events: seq<Event>, e: Event)
    ensures var before := FirstWins(stored, Embedded(embed, events));
            FirstWins(stored, Embedded(embed, events + [e])) ==
            if e.id in before then before else before[e.id := embed(e.content)]
  {
    assert (events + [e])[..|events|] == events;
    var items, item := Embedded(embed, events), RecordOf(e, embed(e.content));
    assert (items + [item])[..|items|] == items;
  }

  lemma RecordsAreEmbedded(provider: Provider, embed: Text -> seq<Word>, events: seq<Event>)
    requires Honest(provider, embed) && provider(Texts(events)).Ok?
    ensures |provider(Texts(events)).value| == |events|
    ensures Records(events, provider(Texts(events)).value) == Embedded(embed, events)
  {
    EmbeddedAt(embed, events);
  }

  /** A batch that goes through means the same as its events one at a time; one that does not means nothing. */
  lemma BatchAbsorbs(s: Setup, t: Tiers, events: seq<Event>, provider: Provider, embed: Text -> seq<Word>, now: int)
    requires PartOf(s, t) && Honest(provider, embed)
    ensures Complete(provider)
    ensures Succeeds(s, t, events, provider) ==>
              Vectors(Processed(s, t, events, provider, now).rows) == Absorb(embed, Vectors(t.rows), events)
    ensures !Succeeds(s, t, events, provider) ==> Processed(s, t, events, provider, now) == t
  {
    var pending := ToEmbed(t.rows, events);
    EmbedsWhatAbsorbs(embed, t.rows, s.storeDim, events);
    if pending != [] && Succeeds(s, t, events, provider) {
      var items := Records(pending, provider(Texts(pending)).value);
      RecordsAreEmbedded(provider, embed, pending);
      SavedReadsBack(t.rows, items, now, s.storeDim);
    }
  }

  // ---------------------------------------------------------------------
  // What a batch stores, field by field
  // ---------------------------------------------------------------------

  lemma {:induction false} MessagesAreMentioned(events: seq<Event>, e: Event)
    requires e in events && (e.kind == UserMessage || e.kind == AssistantMessage) && |e.content| >= 5
    ensures Mentions(Distinct(events), e.id)
  {
    var front, last := events[..|events| - 1], events[|events| - 1];
    assert events == front + [last];
    MentionsPush(Distinct(front), last, e.id);
    if e in front { MessagesAreMentioned(front, e); }
  }

  /** A user or assistant message of at least 5 bytes, and the first such with its id. */
  ghost predicate IsFirstAt(events: seq<Event>, j: nat)
    requires j < |events|
  {
    && (events[j].kind == UserMessage || events[j].kind == AssistantMessage) && |events[j].content| >= 5
    && forall i :: 0 <= i < j && events[i].id == events[j].id ==> events[i].kind == OtherEvent || |events[i].content| < 5
  }

  ghost predicate IsFirstMessage(events: seq<Event>, e: Event) {
    exists j :: 0 <= j < |events| && events[j] == e && IsFirstAt(events, j)
  }

  lemma FirstMessageStays(events: seq<Event>, e: Event)
    requires events != [] && IsFirstMessage(events[..|events| - 1], e)
    ensures IsFirstMessage(events, e)
  {
    var front := events[..|events| - 1];
    var j :| 0 <= j < |front| && front[j] == e && IsFirstAt(front, j);
    assert events[j] == e;
    forall i | 0 <= i < j && events[i].id == e.id ensures events[i].kind == OtherEvent || |events[i].content| < 5 {
      assert front[i] == events[i];
    }
    assert IsFirstAt(events, j);
  }

  lemma {:induction false} DistinctAreFirst(events: seq<Event>, e: Event)
    requires e in Distinct(events)
    ensures IsFirstMessage(events, e)
  {
    var front, last := events[..|events| - 1], events[|events| - 1];
    if e in Distinct(front) {
      DistinctAreFirst(front, e);
      FirstMessageStays(events, e);
    } else {
      assert e == last && Eligible(e) && events[|events| - 1] == e;
      forall i | 0 <= i < |events| - 1 && events[i].id == e.id ensures events[i].kind == OtherEvent || |events[i].content| < 5 {
        assert front[i] == events[i];
        if events[i].kind != OtherEvent && |events[i].content| >= 5 { MessagesAreMentioned(front, events[i]); }
      }
      assert IsFirstAt(events, |events| - 1);
    }
  }

  /** The row that belongs to an event. */
  ghost predicate IsStoredFor(r: Row, e: Event, embed: Text -> seq<Word>, now: int) {
    && r.id == e.id && r.sessionKey == e.sessionKey && r.createdAt == now
    && r.blob == Encode(embed(e.content))
    && r.eventType == (if e.kind == UserMessage then "user_message" else "assistant_message")
  }

  lemma HasIdPush(rows: seq<Row>, r: Row, id: string)
    ensures HasId(rows + [r], id) <==> HasId(rows, id) || r.id == id
  {
    var all := rows + [r];
    if HasId(rows, id) {
      var i :| 0 <= i < |rows| && rows[i].id == id;
      assert all[i].id == id;
    }
    if r.id == id { assert all[|rows|].id == id; }
  }

  function NewRows(items: seq<Record>, now: int): seq<Row> {
    if items == [] then []
    else
      var item := items[|items| - 1];
      NewRows(items[..|items| - 1], now) + [Row(item.id, item.sessionKey, Encode(item.vector), item.eventType, now)]
  }

  /** Records with new ids are appended, one row each. */
  lemma {:induction false} SavedAppends(rows: seq<Row>, items: seq<Record>, now: int, id: string)
    requires forall i :: 0 <= i < |items| ==> !HasId(rows, items[i].id)
    requires forall i, j :: 0 <= i < j < |items| ==> items[i].id != items[j].id
    ensures Saved(rows, items, now) == rows + NewRows(items, now)
    ensures !HasId(rows, id) && (forall i :: 0 <= i < |items| ==> items[i].id != id) ==> !HasId(Saved(rows, items, now), id)
  {
    if items != [] {
      var n := |items| - 1;
      SavedAppends(rows, items[..n], now, items[n].id);
      SavedAppends(rows, items[..n], now, id);
      HasIdPush(Saved(rows, items[..n], now), RowOf(items[n], now), id);
    }
  }

  /**
   * After a batch that goes through, every user or assistant message of at
   * least 5 bytes is stored, and what was added are rows for the first such
   * message of each new id, in addition to the old rows.
   */
  lemma BatchStoresTheMessages(s: Setup, t: Tiers, events: seq<Event>, provider: Provider, embed: Text -> seq<Word>, now: int)
    requires PartOf(s, t) && Honest(provider, embed) && Complete(provider) && Succeeds(s, t, events, provider)
    ensures var rows' := Processed(s, t, events, provider, now).rows;
            && AreAdded(t.rows, rows', events, embed, now)
            && (forall e :: e in events && (e.kind == UserMessage || e.kind == AssistantMessage) && |e.content| >= 5 ==>
                  e.id in Vectors(rows'))
  {
    var pending := ToEmbed(t.rows, events);
    if pending != [] {
      RecordsAreEmbedded(provider, embed, pending);
      SavedAreAdded(t.rows, s.storeDim, events, embed, now);
    }
    forall e | e in events && (e.kind == UserMessage || e.kind == AssistantMessage) && |e.content| >= 5
      ensures e.id in Vectors(Processed(s, t, events, provider, now).rows)
    {
      MessageIsStored(s, t, events, provider, embed, e, now);
    }
  }

  /** What was added are rows of first messages, with ids that were not stored. */
  ghost predicate AreAdded(rows: seq<Row>, saved: seq<Row>, events: seq<Event>, embed: Text -> seq<Word>, now: int) {
    && |rows| <= |saved| && saved[..|rows|] == rows
    && forall r :: r in saved[|rows|..] ==> IsAdded(r, rows, events, embed, now)
  }

  ghost predicate IsAdded(r: Row, rows: seq<Row>, events: seq<Event>, embed: Text -> seq<Word>, now: int) {
    r.id !in Vectors(rows) && exists e :: IsFirstMessage(events, e) && IsStoredFor(r, e, embed, now)
  }

  lemma {:induction false} NewRowsAreAdded(rows: seq<Row>, dim: nat, events: seq<Event>, pending: seq<Event>, embed: Text -> seq<Word>, now: int, r: Row)
    requires UniqueKeys(rows) && Intact(rows, dim) && forall e :: e in pending ==> e in ToEmbed(rows, events)
    requires r in NewRows(Embedded(embed, pending), now)
    ensures IsAdded(r, rows, events, embed, now)
  {
    var front, e := pending[..|pending| - 1], pending[|pending| - 1];
    if r in NewRows(Embedded(embed, front), now) {
      NewRowsAreAdded(rows, dim, events, front, embed, now, r);
    } else {
      AddedIsFirst(rows, dim, events, e);
      assert IsStoredFor(r, e, embed, now);
    }
  }

  lemma SavedAreAdded(rows: seq<Row>, dim: nat, events: seq<Event>, embed: Text -> seq<Word>, now: int)
    requires UniqueKeys(rows) && Intact(rows, dim)
    ensures AreAdded(rows, Saved(rows, Embedded(embed, ToEmbed(rows, events)), now), events, embed, now)
  {
    var pending := ToEmbed(rows, events);
    var items := Embedded(embed, pending);
    DistinctIsDistinct(events);
    NotStoredKeeps(rows, Distinct(events));
    EmbeddedAt(embed, pending);
    SavedAppends(rows, items, now, "");
    AppendedTail(rows, NewRows(items, now));
    forall r | r in NewRows(items, now) ensures IsAdded(r, rows, events, embed, now) {
      NewRowsAreAdded(rows, dim, events, pending, embed, now, r);
    }
  }

  lemma AppendedTail(rows: seq<Row>, added: seq<Row>)
    ensures (rows + added)[..|rows|] == rows && (rows + added)[|rows|..] == added
  {
  }

  lemma AddedIsFirst(rows: seq<Row>, dim: nat, events: seq<Event>, e: Event)
    requires UniqueKeys(rows) && Intact(rows, dim) && e in ToEmbed(rows, events)
    ensures e.id !in Vectors(rows) && IsFirstMessage(events, e)
  {
    DistinctIsDistinct(events);
    NotStoredKeeps(rows, Distinct(events));
    DistinctAreFirst(events, e);
    IntactIds(rows, dim, e.id);
    assert exists i :: 0 <= i < |ToEmbed(rows, events)| && ToEmbed(rows, events)[i] == e;
  }

  lemma MessageIsStored(s: Setup, t: Tiers, events: seq<Event>, provider: Provider, embed: Text -> seq<Word>, e: Event, now: int)
    requires PartOf(s, t) && Honest(provider, embed) && Complete(provider) && Succeeds(s, t, events, provider)
    requires e in events && (e.kind == UserMessage || e.kind == AssistantMessage) && |e.content| >= 5
    ensures e.id in Vectors(Processed(s, t, events, provider, now).rows)
  {
    BatchAbsorbs(s, t, events, provider, embed, now);
    AbsorbedIds(embed, Vectors(t.rows), events, e);
  }

  /** How events are cut into batches does not matter. */
  lemma {:induction false} BatchingIsTransparent(embed: Text -> seq<Word>, stored: Stored, a: seq<Event>, b: seq<Event>)
    ensures Absorb(embed, Absorb(embed, stored, a), b) == Absorb(embed, stored, a + b)
  {
    if b == [] {
      assert a + b == a;
    } else {
      var front := b[..|b| - 1];
      BatchingIsTransparent(embed, stored, a, front);
      assert (a + b)[..|a + b| - 1] == a + front;
    }
  }

  lemma {:induction false} AbsorbedIds(embed: Text -> seq<Word>, stored: Stored, events: seq<Event>, e: Event)
    requires e in events && Eligible(e)
    ensures e.id in Absorb(embed, stored, events)
  {
    var front := events[..|events| - 1];
    if e in front { AbsorbedIds(embed, stored, front, e); }
  }

  predicate Offers(events: seq<Event>, id: string) { exists e :: e in events && Eligible(e) && e.id == id }

  /** Absorbing adds the ids of the eligible events and no others. */
  lemma {:induction false} AbsorbKeys(embed: Text -> seq<Word>, stored: Stored, events: seq<Event>, id: string)
    ensures id in Absorb(embed, stored, events) <==> id in stored || Offers(events, id)
  {
    if events != [] {
      var front, last := events[..|events| - 1], events[|events| - 1];
      AbsorbKeys(embed, stored, front, id);
      assert events == front + [last];
      assert forall e :: e in events <==> e in front || e == last;
    }
  }

  lemma {:induction false} AbsorbNothingNew(embed: Text -> seq<Word>, stored: Stored, events: seq<Event>)
    requires forall e :: e in events && Eligible(e) ==> e.id in stored
    ensures Absorb(embed, stored, events) == stored
  {
    if events != [] { AbsorbNothingNew(embed, stored, events[..|events| - 1]); }
  }

  /** Seeing earlier events again, in any order and number, changes nothing. */
  lemma ReprocessingIsHarmless(embed: Text -> seq<Word>, stored: Stored, events: seq<Event>, again: seq<Event>)
    requires forall e :: e in again ==> e in events
    ensures Absorb(embed, Absorb(embed, stored, events), again) == Absorb(embed, stored, events)
  {
    forall e | e in again && Eligible(e) ensures e.id in Absorb(embed, stored, events) {
      AbsorbedIds(embed, stored, events, e);
    }
    AbsorbNothingNew(embed, Absorb(embed, stored, events), again);
  }

  lemma {:induction false} DistinctMembers(events: seq<Event>, e: Event)
    requires e in Distinct(events)
    ensures e in events && Eligible(e)
  {
    var front := events[..|events| - 1];
    if e in Distinct(front) { DistinctMembers(front, e); }
  }

  /** A batch whose eligible events are all stored does nothing, whatever the provider would have said. */
  lemma StoredEventsAreSkipped(s: Setup, t: Tiers, events: seq<Event>, provider: Provider, now: int)
    requires PartOf(s, t) && Complete(provider)
    requires forall e :: e in events && Eligible(e) ==> e.id in Vectors(t.rows)
    ensures Processed(s, t, events, provider, now) == t && Succeeds(s, t, events, provider)
  {
    var candidates := Distinct(events);
    forall i | 0 <= i < |candidates| ensures HasId(t.rows, candidates[i].id) {
      DistinctMembers(events, candidates[i]);
      IntactIds(t.rows, s.storeDim, candidates[i].id);
    }
    AllStored(t.rows, candidates);
  }

  lemma {:induction false} AllStored(rows: seq<Row>, events: seq<Event>)
    requires forall i :: 0 <= i < |events| ==> HasId(rows, events[i].id)
    ensures NotStored(rows, events) == []
  {
    if events != [] { AllStored(rows, events[..|events| - 1]); }
  }

  // ---------------------------------------------------------------------
  // The indexing loop
  // ---------------------------------------------------------------------

  /** What the loop wakes up for; each flush comes with the provider's answer at that moment. */
  datatype Input =
    | Received(e: Event, provider: Provider, now: int)
    | Lagged(n: nat)
    | Ticked(provider: Provider, now: int)
    | Stopped(provider: Provider, now: int)

  datatype Loop = Loop(tiers: Tiers, buffer: seq<Event>, stopped: bool)

  ghost predicate InputOk(input: Input) {
    match input
    case Received(_, provider, _) => Complete(provider)
    case Ticked(provider, _) => Complete(provider)
    case Stopped(provider, _) => Complete(provider)
    case Lagged(_) => true
  }

  /** A failed flush is logged and its events are gone. */
  ghost function Flushed(s: Setup, loop: Loop, provider: Provider, now: int): Loop
    requires Complete(provider)
  {
    if loop.buffer == [] then loop
    else loop.(tiers := Processed(s, loop.tiers, loop.buffer, provider, now), buffer := [])
  }

  ghost function Advance(s: Setup, loop: Loop, input: Input): Loop
    requires InputOk(input)
  {
    if loop.stopped then loop
    else
      match input
      case Received(e, provider, now) =>
        var next := loop.(buffer := loop.buffer + [e]);
        if |next.buffer| >= BATCH_SIZE then Flushed(s, next, provider, now) else next
      case Lagged(_) => loop
      case Ticked(provider, now) => Flushed(s, loop, provider, now)
      case Stopped(provider, now) => Flushed(s, loop, provider, now).(stopped := true)
  }

  /** When the buffer is emptied: by the sixteenth event, by every tick and by the shutdown, and not before. */
  lemma FlushesWhenDue(s: Setup, loop: Loop, input: Input)
    requires InputOk(input) && !loop.stopped
    ensures var next := Advance(s, loop, input);
            && (input.Received? && |loop.buffer| >= 15 ==> next.buffer == [])
            && (input.Received? && |loop.buffer| < 15 ==> next.buffer == loop.buffer + [input.e] && next.tiers == loop.tiers)
            && (input.Ticked? || input.Stopped? ==> next.buffer == [])
            && (input.Lagged? ==> next == loop)
            && (next.stopped <==> input.Stopped?)
  {
  }

  class EmbeddingIndexer {
    const s: Setup
    const store: EmbeddingStore
    const index: MemoryIndex
    var buffer: seq<Event>
    var stopped: bool

    ghost predicate Valid()
      reads this, store, index
    {
      store.Valid() && index.Valid() && BuiltWith(s, store, index)
    }

    ghost function View(): Loop
      requires Valid()
      reads this, store, index
    {
      Loop(TiersOf(store, index), buffer, stopped)
    }

    constructor (s: Setup, store: EmbeddingStore, index: MemoryIndex)
      requires store.Valid() && index.Valid() && BuiltWith(s, store, index)
      ensures Valid() && this.s == s && this.store == store && this.index == index
      ensures View() == Loop(TiersOf(store, index), [], false)
    {
      this.s, this.store, this.index := s, store, index;
      buffer, stopped := [], false;
    }

    method Flush(provider: Provider, now: int)
      requires Valid() && Complete(provider)
      modifies this, store, index
      ensures Valid() && View() == Flushed(s, old(View()), provider, now)
    {
      if buffer != [] {
        var events := buffer;
        buffer := [];
        var r := ProcessBatch(s, store, index, events, provider, now);
      }
    }

    /** One turn of the loop. */
    method Turn(input: Input)
      requires Valid() && InputOk(input)
      modifies this, store, index
      ensures Valid() && View() == Advance(s, old(View()), input)
    {
      if stopped {
        return;
      }
      match input {
        case Received(e, provider, now) =>
          buffer := buffer + [e];
          if |buffer| >= BATCH_SIZE { Flush(provider, now); }
        case Lagged(_) =>
        case Ticked(provider, now) => Flush(provider, now);
        case Stopped(provider, now) =>
          Flush(provider, now);
          stopped := true;
      }
    }
  }

  // Whole runs

  ghost predicate RunOk(inputs: seq<Input>) { forall i :: 0 <= i < |inputs| ==> InputOk(inputs[i]) }

  /** The loop from whatever the tiers hold when it is started. */
  ghost function Run(s: Setup, start: Tiers, inputs: seq<Input>): Loop
    requires RunOk(inputs)
  {
    if inputs == [] then Loop(start, [], false)
    else Advance(s, Run(s, start, inputs[..|inputs| - 1]), inputs[|inputs| - 1])
  }

  lemma AdvanceKeepsInStep(s: Setup, loop: Loop, input: Input)
    requires PartOf(s, loop.tiers) && InputOk(input)
    ensures PartOf(s, Advance(s, loop, input).tiers)
    ensures InStep(s, loop.tiers) ==> InStep(s, Advance(s, loop, input).tiers)
  {
    match input
    case Received(e, provider, now) => BatchKeepsInStep(s, loop.tiers, loop.buffer + [e], provider, now);
    case Ticked(provider, now) => BatchKeepsInStep(s, loop.tiers, loop.buffer, provider, now);
    case Stopped(provider, now) => BatchKeepsInStep(s, loop.tiers, loop.buffer, provider, now);
    case Lagged(_) =>
  }

  /** An index that starts as part of the store stays one; one that starts with all of it stays complete. */
  lemma {:induction false} RunStaysInStep(s: Setup, start: Tiers, inputs: seq<Input>)
    requires PartOf(s, start) && RunOk(inputs)
    ensures PartOf(s, Run(s, start, inputs).tiers)
    ensures InStep(s, start) ==> InStep(s, Run(s, start, inputs).tiers)
  {
    if inputs != [] {
      RunStaysInStep(s, start, inputs[..|inputs| - 1]);
      AdvanceKeepsInStep(s, Run(s, start, inputs[..|inputs| - 1]), inputs[|inputs| - 1]);
    }
  }

  /** After every turn of a run that starts in step, failed batches included, the live index is the one a rebuild would produce. */
  lemma LiveIndexIsRebuilt(s: Setup, start: Tiers, inputs: seq<Input>)
    requires InStep(s, start) && RunOk(inputs)
    ensures var t := Run(s, start, inputs).tiers; t.entries == Rebuilt(s, map[], Loaded(t.rows))
  {
    RunStaysInStep(s, start, inputs);
    RebuildReadsStore(s, Run(s, start, inputs).tiers.rows);
  }

  // What becomes of the events

  predicate HasStopped(inputs: seq<Input>) { exists i :: 0 <= i < |inputs| && inputs[i].Stopped? }

  /** The events received before the loop stopped. */
  function Heard(inputs: seq<Input>): seq<Event> {
    if inputs == [] then []
    else
      var before := Heard(inputs[..|inputs| - 1]);
      var input := inputs[|inputs| - 1];
      if input.Received? && !HasStopped(inputs[..|inputs| - 1]) then before + [input.e] else before
  }

  ghost predicate InputHonest(input: Input, embed: Text -> seq<Word>) {
    match input
    case Received(_, provider, _) => Honest(provider, embed)
    case Ticked(provider, _) => Honest(provider, embed)
    case Stopped(provider, _) => Honest(provider, embed)
    case Lagged(_) => true
  }

  ghost predicate RunHonest(inputs: seq<Input>, embed: Text -> seq<Word>) {
    forall i :: 0 <= i < |inputs| ==> InputHonest(inputs[i], embed)
  }

  /** The events of the flushes that went through, and of those that did not. */
  datatype Fate = Fate(kept: seq<Event>, lost: seq<Event>)

  ghost function Fated(s: Setup, fate: Fate, t: Tiers, events: seq<Event>, provider: Provider): Fate
    requires Complete(provider)
  {
    if events == [] then fate
    else if Succeeds(s, t, events, provider) then fate.(kept := fate.kept + events)
    else fate.(lost := fate.lost + events)
  }

  ghost function FateAfter(s: Setup, fate: Fate, loop: Loop, input: Input): Fate
    requires InputOk(input)
  {
    if loop.stopped then fate
    else
      match input
      case Received(e, provider, _) =>
        if |loop.buffer| + 1 >= BATCH_SIZE then Fated(s, fate, loop.tiers, loop.buffer + [e], provider) else fate
      case Lagged(_) => fate
      case Ticked(provider, _) => Fated(s, fate, loop.tiers, loop.buffer, provider)
      case Stopped(provider, _) => Fated(s, fate, loop.tiers, loop.buffer, provider)
  }

  ghost function FateOf(s: Setup, start: Tiers, inputs: seq<Input>): Fate
    requires RunOk(inputs)
  {
    if inputs == [] then Fate([], [])
    else
      var front := inputs[..|inputs| - 1];
      FateAfter(s, FateOf(s, start, front), Run(s, start, front), inputs[|inputs| - 1])
  }

  /**
   * The store holds what was kept, every event heard is kept, lost or still in
   * the buffer, and without losses they are kept in the order they were heard.
   */
  ghost predicate Accounted(embed: Text -> seq<Word>, start: Stored, loop: Loop, fate: Fate, heard: seq<Event>) {
    && |loop.buffer| < BATCH_SIZE
    && (loop.stopped ==> loop.buffer == [])
    && Balanced(embed, start, loop, fate, heard)
  }

  ghost predicate Balanced(embed: Text -> seq<Word>, start: Stored, loop: Loop, fate: Fate, heard: seq<Event>) {
    && Vectors(loop.tiers.rows) == Absorb(embed, start, fate.kept)
    && multiset(heard) == multiset(fate.kept) + multiset(fate.lost) + multiset(loop.buffer)
    && (fate.lost == [] ==> heard == fate.kept + loop.buffer)
  }

  lemma FlushKeepsAccount(s: Setup, embed: Text -> seq<Word>, start: Stored, loop: Loop, fate: Fate, heard: seq<Event>,
                          provider: Provider, now: int)
    requires PartOf(s, loop.tiers) && Honest(provider, embed) && Balanced(embed, start, loop, fate, heard)
    ensures Complete(provider)
    ensures var next := Flushed(s, loop, provider, now);
            && next.stopped == loop.stopped && next.buffer == []
            && Balanced(embed, start, next, Fated(s, fate, loop.tiers, loop.buffer, provider), heard)
  {
    BatchAbsorbs(s, loop.tiers, loop.buffer, provider, embed, now);
    BatchingIsTransparent(embed, start, fate.kept, loop.buffer);
    assert fate.kept + loop.buffer + [] == fate.kept + loop.buffer;
  }

  lemma BufferingKeepsBalance(embed: Text -> seq<Word>, start: Stored, loop: Loop, fate: Fate, heard: seq<Event>, e: Event)
    requires Balanced(embed, start, loop, fate, heard)
    ensures Balanced(embed, start, loop.(buffer := loop.buffer + [e]), fate, heard + [e])
  {
    assert fate.kept + loop.buffer + [e] == fate.kept + (loop.buffer + [e]);
  }

  lemma ReceivingKeepsAccount(s: Setup, embed: Text -> seq<Word>, start: Stored, loop: Loop, fate: Fate, heard: seq<Event>, input: Input)
    requires PartOf(s, loop.tiers) && Accounted(embed, start, loop, fate, heard) && !loop.stopped && input.Received?
    requires InputOk(input) && InputHonest(input, embed)
    ensures var next := Advance(s, loop, input);
            Accounted(embed, start, next, FateAfter(s, fate, loop, input), heard + [input.e]) && !next.stopped
  {
    var next := loop.(buffer := loop.buffer + [input.e]);
    BufferingKeepsBalance(embed, start, loop, fate, heard, input.e);
    if |next.buffer| >= BATCH_SIZE {
      FlushKeepsAccount(s, embed, start, next, fate, heard + [input.e], input.provider, input.now);
    }
  }

  lemma OthersKeepAccount(s: Setup, embed: Text -> seq<Word>, start: Stored, loop: Loop, fate: Fate, heard: seq<Event>, input: Input)
    requires PartOf(s, loop.tiers) && Accounted(embed, start, loop, fate, heard) && !loop.stopped && !input.Received?
    requires InputOk(input) && InputHonest(input, embed)
    ensures var next := Advance(s, loop, input);
            Accounted(embed, start, next, FateAfter(s, fate, loop, input), heard) && (next.stopped <==> input.Stopped?)
  {
    if !input.Lagged? { FlushKeepsAccount(s, embed, start, loop, fate, heard, input.provider, input.now); }
  }

  /** In every run, whichever flushes fail. */
  lemma {:induction false} RunIsAccounted(s: Setup, embed: Text -> seq<Word>, start: Tiers, inputs: seq<Input>)
    requires PartOf(s, start) && RunOk(inputs) && RunHonest(inputs, embed)
    ensures Accounted(embed, Vectors(start.rows), Run(s, start, inputs), FateOf(s, start, inputs), Heard(inputs))
    ensures Run(s, start, inputs).stopped <==> HasStopped(inputs)
  {
    if inputs != [] {
      var n := |inputs| - 1;
      var loop, fate, heard := Run(s, start, inputs[..n]), FateOf(s, start, inputs[..n]), Heard(inputs[..n]);
      RunIsAccounted(s, embed, start, inputs[..n]);
      RunStaysInStep(s, start, inputs[..n]);
      StoppedSplits(inputs);
      if !HasStopped(inputs[..n]) {
        if inputs[n].Received? {
          ReceivingKeepsAccount(s, embed, Vectors(start.rows), loop, fate, heard, inputs[n]);
        } else {
          OthersKeepAccount(s, embed, Vectors(start.rows), loop, fate, heard, inputs[n]);
        }
      }
    }
  }

  lemma StoppedSplits(inputs: seq<Input>)
    requires inputs != []
    ensures HasStopped(inputs) <==> HasStopped(inputs[..|inputs| - 1]) || inputs[|inputs| - 1].Stopped?
  {
    var front := inputs[..|inputs| - 1];
    if HasStopped(front) {
      var i :| 0 <= i < |front| && front[i].Stopped?;
      assert inputs[i].Stopped?;
    }
    if inputs[|inputs| - 1].Stopped? { assert inputs[|inputs| - 1].Stopped?; }
  }

  /**
   * After shutdown, everything eligible that was heard is stored exactly when
   * no failed flush held the only chance of an id.
   */
  lemma NothingIsLostExactlyWhen(s: Setup, embed: Text -> seq<Word>, start: Tiers, inputs: seq<Input>)
    requires PartOf(s, start) && RunOk(inputs) && RunHonest(inputs, embed) && HasStopped(inputs)
    ensures var stored, fate := Vectors(Run(s, start, inputs).tiers.rows), FateOf(s, start, inputs);
            (forall e :: e in Heard(inputs) && Eligible(e) ==> e.id in stored) <==>
            (forall e :: e in fate.lost && Eligible(e) ==> e.id in Vectors(start.rows) || Offers(fate.kept, e.id))
  {
    RunIsAccounted(s, embed, start, inputs);
    var fate := FateOf(s, start, inputs);
    forall e ensures e in Heard(inputs) <==> e in fate.kept || e in fate.lost {
      assert e in multiset(Heard(inputs)) <==> e in multiset(fate.kept) || e in multiset(fate.lost);
    }
    forall id ensures id in Absorb(embed, Vectors(start.rows), fate.kept) <==> id in Vectors(start.rows) || Offers(fate.kept, id) {
      AbsorbKeys(embed, Vectors(start.rows), fate.kept, id);
    }
  }

  /**
   * After shutdown without a failed flush, the store holds the first version of
   * every eligible event heard, whatever the batches were.
   */
  lemma NothingHeardIsLost(s: Setup, embed: Text -> seq<Word>, start: Tiers, inputs: seq<Input>)
    requires PartOf(s, start) && RunOk(inputs) && RunHonest(inputs, embed) && HasStopped(inputs)
    requires FateOf(s, start, inputs).lost == []
    ensures Vectors(Run(s, start, inputs).tiers.rows) == Absorb(embed, Vectors(start.rows), Heard(inputs))
    ensures InStep(s, start) ==> forall e :: e in Heard(inputs) && Eligible(e) ==> e.id in Run(s, start, inputs).tiers.entries
  {
    RunIsAccounted(s, embed, start, inputs);
    RunStaysInStep(s, start, inputs);
    var fate := FateOf(s, start, inputs);
    assert fate.kept + [] == fate.kept;
    forall e | e in Heard(inputs) && Eligible(e) ensures e.id in Absorb(embed, Vectors(start.rows), Heard(inputs)) {
      AbsorbedIds(embed, Vectors(start.rows), Heard(inputs), e);
    }
  }

  lemma DownFlushDoesNothing(s: Setup, e: Event, provider: Provider, now: int)
    requires Complete(provider) && forall texts :: provider(texts).Err?
    ensures Processed(s, Tiers([], map[]), [e], provider, now) == Tiers([], map[])
  {
  }

  lemma OneHeard(a: Input, b: Input)
    requires a.Received? && b.Stopped?
    ensures Heard([a, b]) == [a.e] && HasStopped([a, b])
  {
    assert [a, b][1].Stopped?;
    assert [a, b][..1] == [a] && [a][..0] == [];
    assert !HasStopped([]) && Heard([a]) == Heard([]) + [a.e];
  }

  lemma Buffered(s: Setup, start: Tiers, e: Event, provider: Provider, now: int)
    requires Complete(provider)
    ensures RunOk([Received(e, provider, now)])
    ensures Run(s, start, [Received(e, provider, now)]) == Loop(start, [e], false)
  {
    var a := Received(e, provider, now);
    assert [a][..0] == [];
    assert Run(s, start, []) == Loop(start, [], false);
  }

  /** One event, and a provider that is down at the last flush: the event is heard and never stored. */
  lemma FailedFlushLosesEvents(s: Setup, e: Event, provider: Provider, now: int)
    requires Eligible(e) && Complete(provider) && forall texts :: provider(texts).Err?
    ensures var inputs := [Received(e, provider, now), Stopped(provider, now)];
            && RunOk(inputs) && HasStopped(inputs) && Heard(inputs) == [e]
            && Run(s, Tiers([], map[]), inputs).tiers == Tiers([], map[])
  {
    var a, b := Received(e, provider, now), Stopped(provider, now);
    OneHeard(a, b);
    assert [a, b][..1] == [a];
    Buffered(s, Tiers([], map[]), e, provider, now);
    DownFlushDoesNothing(s, e, provider, now);
  }
}
