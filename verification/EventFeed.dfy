/**
 The menu bar app's list of events. Batches arrive in any order and may repeat events; the
 app keeps the newest ones in one sorted list, the set of their ids and a list per repo,
 taking a cheap path when a batch simply continues the list.
 */
module EventFeed {
  datatype DaemonEvent = DaemonEvent(id: nat, repo: string, body: nat)

  const maxEvents: nat := 2000

  // ---------- The simple form ----------

  /** Everything ever ingested, by id; the first event seen with an id stands for it. */
  function Learn(known: map<nat, DaemonEvent>, batch: seq<DaemonEvent>): map<nat, DaemonEvent>
    decreases |batch|
  {
    if batch == [] then known
    else Learn(if batch[0].id in known then known else known[batch[0].id := batch[0]], batch[1..])
  }

  function LearnAll(known: map<nat, DaemonEvent>, batches: seq<seq<DaemonEvent>>): map<nat, DaemonEvent>
    decreases |batches|
  {
    if batches == [] then known else LearnAll(Learn(known, batches[0]), batches[1..])
  }

  function Ids(events: seq<DaemonEvent>): set<nat> {
    set e <- events :: e.id
  }

  ghost predicate Ascending(events: seq<DaemonEvent>) {
    forall i, j :: 0 <= i < j < |events| ==> events[i].id < events[j].id
  }

  /** What is known about an id that is not, or no longer, in the list. */
  ghost predicate Covered(events: seq<DaemonEvent>, id: nat) {
    id in Ids(events) || (|events| == 2000 && id < events[0].id)
  }

  /** `events` are the `maxEvents` highest of the known events, in ascending order. */
  ghost predicate Newest(known: map<nat, DaemonEvent>, events: seq<DaemonEvent>) {
    && Ascending(events) && |events| <= 2000
    && (forall e <- events :: e.id in known && known[e.id] == e)
    && (forall id <- known :: Covered(events, id))
  }

  function OfRepo(events: seq<DaemonEvent>, repo: string): seq<DaemonEvent> {
    if events == [] then []
    else
      var before, last := events[..|events| - 1], events[|events| - 1];
      if last.repo == repo then OfRepo(before, repo) + [last] else OfRepo(before, repo)
  }

  /** The per-repo index is the list filtered, with an entry for just the repos that occur. */
  ghost predicate Indexes(index: map<string, seq<DaemonEvent>>, events: seq<DaemonEvent>) {
    forall repo :: IndexedAt(index, events, repo)
  }

  ghost predicate IndexedAt(index: map<string, seq<DaemonEvent>>, events: seq<DaemonEvent>, repo: string) {
    if repo in index then index[repo] == OfRepo(events, repo) != [] else OfRepo(events, repo) == []
  }

  // ---------- The newest events are determined by what is known ----------

  lemma {:induction false} AlignedAtTheEnd(events: seq<DaemonEvent>, more: seq<DaemonEvent>, k: nat)
    requires Ascending(events) && Ascending(more) && Ids(events) <= Ids(more) && 1 <= k <= |events|
    ensures |more| >= k && events[|events| - k].id <= more[|more| - k].id
  {
    var e := events[|events| - k];
    assert e.id in Ids(events);
    var m :| m in more && m.id == e.id;
    var i :| 0 <= i < |more| && more[i] == m;
    if k > 1 {
      AlignedAtTheEnd(events, more, k - 1);
      assert events[|events| - k].id < events[|events| - k + 1].id;
    }
  }

  lemma IdsAt(events: seq<DaemonEvent>, i: nat)
    requires i < |events|
    ensures events[i].id in Ids(events)
  {
    assert events[i] in events;
  }

  lemma IdsOfOneMore(events: seq<DaemonEvent>, e: DaemonEvent)
    ensures Ids(events + [e]) == Ids(events) + {e.id}
  {
    assert e in events + [e];
    assert forall x <- events :: x in events + [e];
    assert forall x <- events + [e] :: x in events || x == e;
  }

  lemma IdHasIndex(events: seq<DaemonEvent>, id: nat) returns (i: nat)
    requires id in Ids(events)
    ensures i < |events| && events[i].id == id
  {
    var e :| e in events && e.id == id;
    i :| 0 <= i < |events| && events[i] == e;
  }

  /** Were a[i] missing from b, a would hold all of the full list b above it. */
  lemma NewestHolds(known: map<nat, DaemonEvent>, a: seq<DaemonEvent>, b: seq<DaemonEvent>, i: nat)
    requires Newest(known, a) && Newest(known, b) && i < |a|
    ensures a[i].id in Ids(b)
  {
    assert a[i] in a && Covered(b, a[i].id);
    if a[i].id !in Ids(b) {
      forall id | id in Ids(b)
        ensures id in Ids(a[i + 1..])
      {
        var j := IdHasIndex(b, id);
        assert b[j] in b && Covered(a, id);
        assert a[0].id <= a[i].id < b[0].id <= id;
        var h := IdHasIndex(a, id);
        assert a[h] in a[i + 1..] by { assert a[h] == a[i + 1..][h - i - 1]; }
      }
      AlignedAtTheEnd(b, a[i + 1..], |b|);
    }
  }

  lemma NewestHoldsAll(known: map<nat, DaemonEvent>, a: seq<DaemonEvent>, b: seq<DaemonEvent>)
    requires Newest(known, a) && Newest(known, b)
    ensures Ids(a) <= Ids(b)
  {
    forall id | id in Ids(a)
      ensures id in Ids(b)
    {
      var i := IdHasIndex(a, id);
      NewestHolds(known, a, b, i);
    }
  }

  /** So the list depends only on what was ingested, not on the order or grouping of batches. */
  lemma NewestIsUnique(known: map<nat, DaemonEvent>, a: seq<DaemonEvent>, b: seq<DaemonEvent>)
    requires Newest(known, a) && Newest(known, b)
    ensures a == b
  {
    NewestHoldsAll(known, a, b);
    NewestHoldsAll(known, b, a);
    if |a| < |b| {
      AlignedFully(b, a);
    } else if |b| < |a| {
      AlignedFully(a, b);
    }
    forall i | 0 <= i < |a|
      ensures a[i] == b[i]
    {
      AlignedAtTheEnd(a, b, |a| - i);
      AlignedAtTheEnd(b, a, |a| - i);
      assert a[i] in a && b[i] in b;
    }
  }

  lemma AlignedFully(a: seq<DaemonEvent>, b: seq<DaemonEvent>)
    requires Ascending(a) && Ascending(b) && Ids(a) <= Ids(b)
    ensures |a| <= |b|
  {
    if a != [] {
      AlignedAtTheEnd(a, b, |a|);
    }
  }

  // ---------- One batch ----------

  /** The events of a batch whose ids are not in the list, each id once. */
  function Fresh(seen: set<nat>, batch: seq<DaemonEvent>): seq<DaemonEvent>
    decreases |batch|
  {
    if batch == [] then []
    else if batch[0].id in seen then Fresh(seen, batch[1..])
    else [batch[0]] + Fresh(seen + {batch[0].id}, batch[1..])
  }

  lemma FreshStep(added: seq<DaemonEvent>, seen: set<nat>, batch: seq<DaemonEvent>, k: nat)
    requires k < |batch|
    ensures added + Fresh(seen, batch[k..]) ==
            if batch[k].id in seen then added + Fresh(seen, batch[k + 1..])
            else (added + [batch[k]]) + Fresh(seen + {batch[k].id}, batch[k + 1..])
  {
    assert batch[k..][1..] == batch[k + 1..];
    var rest := Fresh(seen + {batch[k].id}, batch[k + 1..]);
    assert added + ([batch[k]] + rest) == (added + [batch[k]]) + rest;
  }

  ghost predicate Distinct(events: seq<DaemonEvent>) {
    forall i, j :: 0 <= i < j < |events| ==> events[i].id != events[j].id
  }

  lemma {:induction false} FreshAreNew(seen: set<nat>, batch: seq<DaemonEvent>)
    ensures Distinct(Fresh(seen, batch))
    ensures forall e <- Fresh(seen, batch) :: e.id !in seen
    decreases |batch|
  {
    if batch != [] {
      if batch[0].id in seen {
        FreshAreNew(seen, batch[1..]);
      } else {
        FreshAreNew(seen + {batch[0].id}, batch[1..]);
        assert forall e <- Fresh(seen + {batch[0].id}, batch[1..]) :: e.id !in seen;
      }
    }
  }

  lemma {:induction false} LearnKeeps(known: map<nat, DaemonEvent>, batch: seq<DaemonEvent>, id: nat)
    requires id in known
    ensures id in Learn(known, batch) && Learn(known, batch)[id] == known[id]
    decreases |batch|
  {
    if batch != [] {
      LearnKeeps(if batch[0].id in known then known else known[batch[0].id := batch[0]], batch[1..], id);
    }
  }

  /** What a batch adds to the known events is among its fresh ones. */
  lemma {:induction false} LearnedAreFresh(known: map<nat, DaemonEvent>, seen: set<nat>, batch: seq<DaemonEvent>, id: nat)
    requires seen <= known.Keys && id in Learn(known, batch) && id !in known
    ensures id in Ids(Fresh(seen, batch))
    decreases |batch|
  {
    if batch != [] {
      var e, rest := batch[0], batch[1..];
      var next := if e.id in known then known else known[e.id := e];
      var seen' := if e.id in seen then seen else seen + {e.id};
      if e.id == id {
        assert Fresh(seen, batch)[0] == e;
        assert e in Fresh(seen, batch);
      } else {
        LearnedAreFresh(next, seen', rest, id);
        var i := IdHasIndex(Fresh(seen', rest), id);
        assert Fresh(seen', rest)[i] in Fresh(seen, batch);
      }
    }
  }

  lemma {:induction false} FreshAreLearned(known: map<nat, DaemonEvent>, seen: set<nat>, batch: seq<DaemonEvent>, f: DaemonEvent)
    requires seen <= known.Keys && f in Fresh(seen, batch)
    ensures f.id in Learn(known, batch) && (f.id !in known ==> Learn(known, batch)[f.id] == f)
    decreases |batch|
  {
    var e, rest := batch[0], batch[1..];
    var next := if e.id in known then known else known[e.id := e];
    var seen' := if e.id in seen then seen else seen + {e.id};
    if f in Fresh(seen', rest) {
      FreshAreLearned(next, seen', rest, f);
      FreshAreNew(seen', rest);
    } else {
      assert f == e;
      LearnKeeps(next, rest, f.id);
    }
  }

  function LastOf(events: seq<DaemonEvent>): seq<DaemonEvent> {
    if |events| > maxEvents then events[|events| - maxEvents..] else events
  }

  /** `merged` holds the old list and the fresh events, sorted. */
  ghost predicate Merges(list: seq<DaemonEvent>, added: seq<DaemonEvent>, merged: seq<DaemonEvent>) {
    && Ascending(merged)
    && (forall e :: e in merged <==> e in list || e in added)
  }

  lemma MergedIds(list: seq<DaemonEvent>, added: seq<DaemonEvent>, merged: seq<DaemonEvent>)
    requires Merges(list, added, merged)
    ensures Ids(merged) == Ids(list) + Ids(added)
  {
    assert forall e <- merged :: e in list || e in added;
    assert forall e <- list :: e in merged;
    assert forall e <- added :: e in merged;
  }

  lemma LastOfHolds(events: seq<DaemonEvent>, id: nat)
    requires Ascending(events) && id in Ids(events)
    ensures Covered(LastOf(events), id)
  {
    var i := IdHasIndex(events, id);
    var kept := LastOf(events);
    var n := |events| - |kept|;
    if i >= n {
      assert kept[i - n] == events[i];
      IdsAt(kept, i - n);
    }
  }

  /** An id below a full list stays below it, whatever is merged in. */
  lemma StaysBelow(list: seq<DaemonEvent>, merged: seq<DaemonEvent>)
    requires Ascending(list) && Ascending(merged) && Ids(list) <= Ids(merged) && |list| == maxEvents
    ensures |LastOf(merged)| == maxEvents && LastOf(merged)[0].id >= list[0].id
  {
    AlignedAtTheEnd(list, merged, maxEvents);
  }

  lemma KeptAreKnown(known: map<nat, DaemonEvent>, list: seq<DaemonEvent>, batch: seq<DaemonEvent>, merged: seq<DaemonEvent>, e: DaemonEvent)
    requires Newest(known, list) && Merges(list, Fresh(Ids(list), batch), merged) && e in LastOf(merged)
    ensures e.id in Learn(known, batch) && Learn(known, batch)[e.id] == e
  {
    var seen := Ids(list);
    var i :| 0 <= i < |LastOf(merged)| && LastOf(merged)[i] == e;
    assert e in merged;
    assert seen <= known.Keys;
    if e in list {
      LearnKeeps(known, batch, e.id);
    } else {
      FreshAreLearned(known, seen, batch, e);
      FreshAreNew(seen, batch);
      if e.id in known {
        assert Covered(list, e.id);
        MergedIds(list, Fresh(seen, batch), merged);
        StaysBelow(list, merged);
      }
    }
  }

  /** Merging the fresh events and keeping the last ones keeps the newest of all known events. */
  lemma BatchKeepsNewest(known: map<nat, DaemonEvent>, list: seq<DaemonEvent>, batch: seq<DaemonEvent>, merged: seq<DaemonEvent>)
    requires Newest(known, list) && Merges(list, Fresh(Ids(list), batch), merged)
    ensures Newest(Learn(known, batch), LastOf(merged))
  {
    var seen, added, kept := Ids(list), Fresh(Ids(list), batch), LastOf(merged);
    MergedIds(list, added, merged);
    assert seen <= known.Keys;
    forall e | e in kept
      ensures e.id in Learn(known, batch) && Learn(known, batch)[e.id] == e
    {
      KeptAreKnown(known, list, batch, merged, e);
    }
    forall id | id in Learn(known, batch)
      ensures Covered(kept, id)
    {
      if id !in known {
        LearnedAreFresh(known, seen, batch, id);
        LastOfHolds(merged, id);
      } else {
        assert Covered(list, id);
        if id in Ids(list) {
          LastOfHolds(merged, id);
        } else {
          StaysBelow(list, merged);
        }
      }
    }
  }

  // ---------- Sorting and indexing ----------

  function Insert(sorted: seq<DaemonEvent>, e: DaemonEvent): seq<DaemonEvent> {
    if sorted == [] || sorted[|sorted| - 1].id < e.id then sorted + [e]
    else Insert(sorted[..|sorted| - 1], e) + [sorted[|sorted| - 1]]
  }

  function SortById(events: seq<DaemonEvent>): seq<DaemonEvent> {
    if events == [] then []
    else Insert(SortById(events[..|events| - 1]), events[|events| - 1])
  }

  lemma {:induction false} InsertMembers(sorted: seq<DaemonEvent>, e: DaemonEvent)
    ensures forall x :: x in Insert(sorted, e) <==> x in sorted || x == e
  {
    if sorted != [] && sorted[|sorted| - 1].id >= e.id {
      var before, last := sorted[..|sorted| - 1], sorted[|sorted| - 1];
      assert sorted == before + [last];
      InsertMembers(before, e);
    }
  }

  lemma {:induction false} InsertKeepsOrder(sorted: seq<DaemonEvent>, e: DaemonEvent)
    requires Ascending(sorted) && e.id !in Ids(sorted)
    ensures Ascending(Insert(sorted, e))
  {
    if sorted != [] && sorted[|sorted| - 1].id >= e.id {
      var before, last := sorted[..|sorted| - 1], sorted[|sorted| - 1];
      IdsAt(sorted, |sorted| - 1);
      assert Ids(before) <= Ids(sorted);
      InsertKeepsOrder(before, e);
      InsertMembers(before, e);
      forall i | 0 <= i < |Insert(before, e)|
        ensures Insert(before, e)[i].id < last.id
      {
        assert Insert(before, e)[i] in Insert(before, e);
      }
    }
  }

  lemma {:induction false} SortSorts(events: seq<DaemonEvent>)
    requires Distinct(events)
    ensures Ascending(SortById(events))
    ensures forall x :: x in SortById(events) <==> x in events
  {
    if events != [] {
      var before, last := events[..|events| - 1], events[|events| - 1];
      assert events == before + [last];
      SortSorts(before);
      assert last.id !in Ids(SortById(before));
      InsertKeepsOrder(SortById(before), last);
      InsertMembers(SortById(before), last);
    }
  }

  /** One more event at the end of the list adds one entry at the end of its repo's list. */
  lemma IndexGrows(index: map<string, seq<DaemonEvent>>, events: seq<DaemonEvent>, e: DaemonEvent)
    requires Indexes(index, events)
    ensures Indexes(index[e.repo := (if e.repo in index then index[e.repo] else []) + [e]], events + [e])
  {
    var index' := index[e.repo := (if e.repo in index then index[e.repo] else []) + [e]];
    assert (events + [e])[..|events|] == events;
    forall repo
      ensures IndexedAt(index', events + [e], repo)
    {
      assert IndexedAt(index, events, repo);
    }
  }

  // ---------- The list as the app keeps it ----------

  predicate Neighbours(events: seq<DaemonEvent>) {
    forall i :: 1 <= i < |events| ==> events[i - 1].id < events[i].id
  }

  function LastId(events: seq<DaemonEvent>): nat {
    if events == [] then 0 else events[|events| - 1].id
  }

  lemma {:induction false} NeighboursAscend(events: seq<DaemonEvent>, i: nat, j: nat)
    requires Neighbours(events) && i < j < |events|
    ensures events[i].id < events[j].id
    decreases j
  {
    if i < j - 1 {
      NeighboursAscend(events, i, j - 1);
    }
  }

  /** A batch that continues the list needs no sorting. */
  lemma InOrderMerges(list: seq<DaemonEvent>, added: seq<DaemonEvent>)
    requires Ascending(list) && Neighbours(added) && added != [] && LastId(list) < added[0].id
    ensures Merges(list, added, list + added)
  {
    var merged := list + added;
    forall i | 1 <= i < |merged|
      ensures merged[i - 1].id < merged[i].id
    {
      if i > |list| {
        assert merged[i - 1] == added[i - 1 - |list|] && merged[i] == added[i - |list|];
      }
    }
    forall i, j | 0 <= i < j < |merged|
      ensures merged[i].id < merged[j].id
    {
      NeighboursAscend(merged, i, j);
    }
  }

  lemma SortMerges(list: seq<DaemonEvent>, batch: seq<DaemonEvent>)
    requires Ascending(list)
    ensures Merges(list, Fresh(Ids(list), batch), SortById(list + Fresh(Ids(list), batch)))
  {
    var added := Fresh(Ids(list), batch);
    FreshAreNew(Ids(list), batch);
    forall i, j | 0 <= i < j < |list + added|
      ensures (list + added)[i].id != (list + added)[j].id
    {
      if i < |list| <= j {
        IdsAt(list, i);
        assert added[j - |list|] in added;
      }
    }
    SortSorts(list + added);
  }

  /** The newest id in the list is the newest ever ingested. */
  lemma LastIsNewest(known: map<nat, DaemonEvent>, events: seq<DaemonEvent>, id: nat)
    requires Newest(known, events) && id in known
    ensures events != [] && id <= LastId(events) && LastId(events) in known
  {
    assert Covered(events, id);
    if id in Ids(events) {
      var i := IdHasIndex(events, id);
    }
    assert events[|events| - 1] in events;
  }

  function Max(a: nat, b: nat): nat {
    if a < b then b else a
  }

  class Feed {
    var allEvents: seq<DaemonEvent>
    var eventsByRepo: map<string, seq<DaemonEvent>>
    var seenEventIDs: set<nat>
    var lastSeenEventID: nat
    /** Everything ingested since the last reset. */
    ghost var known: map<nat, DaemonEvent>

    ghost predicate Valid()
      reads this
    {
      && Newest(known, allEvents) && seenEventIDs == Ids(allEvents)
      && Indexes(eventsByRepo, allEvents)
    }

    constructor ()
      ensures Valid() && known == map[] && lastSeenEventID == 0
    {
      allEvents, eventsByRepo, seenEventIDs, lastSeenEventID := [], map[], {}, 0;
      known := map[];
    }

    method ResetEvents()
      modifies this
      ensures Valid() && known == map[] && allEvents == [] && lastSeenEventID == 0
    {
      allEvents, eventsByRepo, seenEventIDs, lastSeenEventID := [], map[], {}, 0;
      known := map[];
    }

    method TakeFresh(batch: seq<DaemonEvent>) returns (added: seq<DaemonEvent>)
      modifies this`seenEventIDs
      ensures added == Fresh(old(seenEventIDs), batch)
      ensures seenEventIDs == old(seenEventIDs) + Ids(added)
    {
      added := [];
      for k := 0 to |batch|
        invariant added + Fresh(seenEventIDs, batch[k..]) == Fresh(old(seenEventIDs), batch)
        invariant seenEventIDs == old(seenEventIDs) + Ids(added)
      {
        FreshStep(added, seenEventIDs, batch, k);
        if batch[k].id !in seenEventIDs {
          seenEventIDs := seenEventIDs + {batch[k].id};
          IdsOfOneMore(added, batch[k]);
          added := added + [batch[k]];
        }
      }
    }

    /** Drops the oldest events beyond `maxEvents`, and their ids. */
    method Trim(events: seq<DaemonEvent>) returns (kept: seq<DaemonEvent>, trimmed: bool)
      requires Ascending(events) && seenEventIDs == Ids(events)
      modifies this`seenEventIDs
      ensures kept == LastOf(events) && trimmed == (|events| > maxEvents)
      ensures seenEventIDs == Ids(kept)
    {
      if |events| <= maxEvents {
        return events, false;
      }
      var overflow := |events| - maxEvents;
      for k := 0 to overflow
        invariant seenEventIDs == Ids(events[k..])
      {
        DropFirst(events[k..]);
        assert events[k..][1..] == events[k + 1..];
        seenEventIDs := seenEventIDs - {events[k].id};
      }
      return events[overflow..], true;
    }

    method AppendToIndex(ghost list: seq<DaemonEvent>, added: seq<DaemonEvent>)
      requires Indexes(eventsByRepo, list)
      modifies this`eventsByRepo
      ensures Indexes(eventsByRepo, list + added)
    {
      assert list + added[..0] == list;
      for k := 0 to |added|
        invariant Indexes(eventsByRepo, list + added[..k])
      {
        var e := added[k];
        IndexGrows(eventsByRepo, list + added[..k], e);
        assert list + added[..k] + [e] == list + added[..k + 1];
        eventsByRepo := eventsByRepo[e.repo := (if e.repo in eventsByRepo then eventsByRepo[e.repo] else []) + [e]];
      }
      assert list + added[..|added|] == list + added;
    }

    /** The index built from nothing. */
    method Regroup(events: seq<DaemonEvent>)
      modifies this`eventsByRepo
      ensures Indexes(eventsByRepo, events)
    {
      eventsByRepo := map[];
      AppendToIndex([], events);
      assert [] + events == events;
    }

    method Merge(ghost batch: seq<DaemonEvent>, added: seq<DaemonEvent>) returns (inOrder: bool, events: seq<DaemonEvent>)
      requires Ascending(allEvents) && added == Fresh(Ids(allEvents), batch) && added != []
      ensures Merges(allEvents, added, events)
      ensures inOrder ==> events == allEvents + added
    {
      inOrder := LastId(allEvents) < added[0].id && Neighbours(added);
      events := allEvents + added;
      if inOrder {
        InOrderMerges(allEvents, added);
      } else {
        SortMerges(allEvents, batch);
        events := SortById(events);
      }
    }

    /** After any batch the list, the id set and the index are those of everything ever ingested. */
    method Ingest(batch: seq<DaemonEvent>)
      requires Valid()
      modifies this
      ensures Valid() && known == Learn(old(known), batch)
      ensures lastSeenEventID == if Fresh(old(seenEventIDs), batch) == [] then old(lastSeenEventID)
                                 else Max(old(lastSeenEventID), LastId(allEvents))
      ensures old(lastSeenEventID) >= LastId(old(allEvents)) ==> lastSeenEventID == Max(old(lastSeenEventID), LastId(allEvents))
    {
      var added := TakeFresh(batch);
      known := Learn(known, batch);
      if added == [] {
        AscendingMerges(allEvents);
        BatchKeepsNewest(old(known), allEvents, batch, allEvents);
        return;
      }
      var inOrder, events := Merge(batch, added);
      BatchKeepsNewest(old(known), allEvents, batch, events);
      Keep(inOrder, added, events);
    }

    /** At start: the cached events, and the last seen id as it was saved with them. */
    method RestoreEvents(cached: seq<DaemonEvent>, lastSeen: nat)
      requires Valid()
      modifies this
      ensures Valid()
      ensures cached == [] ==> known == old(known) && lastSeenEventID == old(lastSeenEventID)
      ensures cached != [] ==> known == Learn(old(known), cached) && lastSeenEventID == lastSeen
    {
      if cached == [] {
        return;
      }
      Ingest(cached);
      lastSeenEventID := lastSeen;
    }

    /** Trims the merged list and brings the index up to date, the cheap way when that suffices. */
    method Keep(inOrder: bool, added: seq<DaemonEvent>, events: seq<DaemonEvent>)
      requires Ascending(allEvents) && Merges(allEvents, added, events)
      requires inOrder ==> events == allEvents + added
      requires seenEventIDs == Ids(allEvents) + Ids(added)
      requires Indexes(eventsByRepo, allEvents)
      modifies this`allEvents, this`eventsByRepo, this`seenEventIDs, this`lastSeenEventID
      ensures allEvents == LastOf(events) && seenEventIDs == Ids(allEvents)
      ensures Indexes(eventsByRepo, allEvents) && lastSeenEventID == Max(old(lastSeenEventID), LastId(allEvents))
    {
      MergedIds(allEvents, added, events);
      var kept, trimmed := Trim(events);
      lastSeenEventID := Max(lastSeenEventID, LastId(kept));
      if inOrder && !trimmed {
        AppendToIndex(allEvents, added);
      } else {
        Regroup(kept);
      }
      allEvents := kept;
    }
  }

  lemma AscendingMerges(list: seq<DaemonEvent>)
    requires Ascending(list)
    ensures Merges(list, [], list)
  {
  }

  lemma DropFirst(events: seq<DaemonEvent>)
    requires Ascending(events) && events != []
    ensures Ids(events[1..]) == Ids(events) - {events[0].id}
  {
    forall id | id in Ids(events[1..])
      ensures id in Ids(events) - {events[0].id}
    {
      var i := IdHasIndex(events[1..], id);
      IdsAt(events, i + 1);
    }
    forall id | id in Ids(events) && id != events[0].id
      ensures id in Ids(events[1..])
    {
      var i := IdHasIndex(events, id);
      IdsAt(events[1..], i - 1);
    }
  }

  /**
   Whatever batches came since a reset, the feed shows the newest of all of them, and the last seen id,
   once it is not behind the list, is the greatest id ever seen.
   */
  method IngestAll(feed: Feed, batches: seq<seq<DaemonEvent>>)
    requires feed.Valid()
    modifies feed
    ensures feed.Valid() && feed.known == LearnAll(old(feed.known), batches)
    ensures old(feed.lastSeenEventID) >= LastId(old(feed.allEvents)) ==>
              feed.lastSeenEventID >= Max(old(feed.lastSeenEventID), LastId(feed.allEvents))
  {
    for k := 0 to |batches|
      invariant feed.Valid()
      invariant old(feed.lastSeenEventID) >= LastId(old(feed.allEvents)) ==>
                  feed.lastSeenEventID >= Max(old(feed.lastSeenEventID), LastId(feed.allEvents))
      invariant LearnAll(feed.known, batches[k..]) == LearnAll(old(feed.known), batches)
    {
      assert batches[k..][1..] == batches[k + 1..];
      feed.Ingest(batches[k]);
    }
  }

  // ---------- The order of batches does not matter ----------

  /** One body per id, as the daemon numbers them. */
  ghost predicate Consistent(batches: seq<seq<DaemonEvent>>, truth: map<nat, DaemonEvent>) {
    forall b <- batches, e <- b :: e.id in truth && truth[e.id] == e
  }

  ghost predicate Delivered(batches: seq<seq<DaemonEvent>>, id: nat) {
    exists b <- batches, e <- b :: e.id == id
  }

  lemma {:induction false} LearnIsTruth(known: map<nat, DaemonEvent>, batch: seq<DaemonEvent>, truth: map<nat, DaemonEvent>)
    requires forall id <- known :: id in truth && known[id] == truth[id]
    requires forall e <- batch :: e.id in truth && truth[e.id] == e
    ensures Learn(known, batch).Keys == known.Keys + Ids(batch)
    ensures forall id <- Learn(known, batch) :: id in truth && Learn(known, batch)[id] == truth[id]
    decreases |batch|
  {
    if batch != [] {
      var e := batch[0];
      LearnIsTruth(if e.id in known then known else known[e.id := e], batch[1..], truth);
      assert batch == [e] + batch[1..];
      assert Ids(batch) == {e.id} + Ids(batch[1..]) by {
        assert forall x <- batch :: x == e || x in batch[1..];
        assert forall x <- batch[1..] :: x in batch;
        assert e in batch;
      }
    }
  }

  lemma {:induction false} LearnAllIsTruth(known: map<nat, DaemonEvent>, batches: seq<seq<DaemonEvent>>, truth: map<nat, DaemonEvent>)
    requires forall id <- known :: id in truth && known[id] == truth[id]
    requires Consistent(batches, truth)
    ensures forall id :: id in LearnAll(known, batches) <==> id in known || Delivered(batches, id)
    ensures forall id <- LearnAll(known, batches) :: id in truth && LearnAll(known, batches)[id] == truth[id]
    decreases |batches|
  {
    if batches != [] {
      var first, rest := batches[0], batches[1..];
      assert first in batches && (forall b <- rest :: b in batches);
      LearnIsTruth(known, first, truth);
      LearnAllIsTruth(Learn(known, first), rest, truth);
      forall id
        ensures Delivered(batches, id) <==> id in Ids(first) || Delivered(rest, id)
      {
        assert batches == [first] + rest;
      }
    }
  }

  /** Two feeds that were given the same events, in whatever batches, show the same list. */
  lemma OrderDoesNotMatter(a: seq<seq<DaemonEvent>>, b: seq<seq<DaemonEvent>>, truth: map<nat, DaemonEvent>, x: seq<DaemonEvent>, y: seq<DaemonEvent>)
    requires Consistent(a, truth) && Consistent(b, truth) && forall id :: Delivered(a, id) <==> Delivered(b, id)
    requires Newest(LearnAll(map[], a), x) && Newest(LearnAll(map[], b), y)
    ensures x == y
  {
    LearnAllIsTruth(map[], a, truth);
    LearnAllIsTruth(map[], b, truth);
    assert LearnAll(map[], a) == LearnAll(map[], b);
    NewestIsUnique(LearnAll(map[], a), x, y);
  }
}
