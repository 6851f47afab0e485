/**
 The daemon's event history: a ring buffer of the newest events, mirrored by an
 append-only file that is compacted when it holds more than twice the capacity.
 */
module EventHistory {
  import opened Basics
  import opened LineReader

  /** `body` stands for the fields the log only carries: type, message, status, code and time. */
  datatype Event = Event(id: nat, repo: string, body: string)

  const MAX_LINE: nat := 1024 * 1024
  const DEFAULT_CAPACITY: nat := 1000

  /** The JSON encoding of one event on one line, as far as the log depends on it. */
  datatype Codec = Codec(encode: Event -> seq<Byte>, decode: seq<Byte> -> Option<Event>) {
    ghost predicate Valid() {
      forall e :: LF !in encode(e) && |encode(e)| > 0 && TrimSuffix(encode(e), CR) == encode(e)
               && decode(encode(e)) == Some(e)
    }

    predicate Fits(e: Event) {
      |encode(e)| <= MAX_LINE
    }
  }

  // ---------- Specification ----------

  function LastN<T>(s: seq<T>, n: nat): seq<T> {
    if |s| <= n then s else s[|s| - n..]
  }

  /** Ids grow strictly, starting above `above`. */
  ghost predicate Increasing(s: seq<Event>, above: nat) {
    s == [] || (above < s[0].id && Increasing(s[1..], s[0].id))
  }

  lemma IncreasingFrom(s: seq<Event>, above: nat, lower: nat)
    requires Increasing(s, above) && lower <= above
    ensures Increasing(s, lower)
  {
  }

  lemma {:induction false} IncreasingMeans(s: seq<Event>, above: nat)
    ensures Increasing(s, above) <==>
            && (forall i :: 0 <= i < |s| ==> above < s[i].id)
            && (forall i, j :: 0 <= i < j < |s| ==> s[i].id < s[j].id)
  {
    if s != [] {
      IncreasingMeans(s[1..], s[0].id);
      if forall i, j :: 0 <= i < j < |s| ==> s[i].id < s[j].id {
        forall i, j | 0 <= i < j < |s[1..]|
          ensures s[1..][i].id < s[1..][j].id
        {
          assert s[i + 1].id < s[j + 1].id;
        }
      }
      if Increasing(s, above) {
        forall i, j | 0 <= i < j < |s|
          ensures s[i].id < s[j].id
        {
          assert s[j] == s[1..][j - 1];
          if i > 0 {
            assert s[i] == s[1..][i - 1];
          }
        }
      }
    }
  }

  function LastIdOf(s: seq<Event>, otherwise: nat): nat {
    if s == [] then otherwise else s[|s| - 1].id
  }

  predicate Wanted(e: Event, since: nat, repo: string) {
    since < e.id && (repo == "" || e.repo == repo)
  }

  function Select(s: seq<Event>, since: nat, repo: string): seq<Event> {
    if s == [] then []
    else if Wanted(s[0], since, repo) then [s[0]] + Select(s[1..], since, repo)
    else Select(s[1..], since, repo)
  }

  /** What a query for events after `since` must return from the retained events. */
  function Answer(retained: seq<Event>, since: nat, repo: string, limit: nat): seq<Event> {
    var all := Select(retained, since, repo);
    if limit > 0 then LastN(all, limit) else all
  }

  lemma ConcatAssoc<T>(a: seq<T>, b: seq<T>, c: seq<T>)
    ensures (a + b) + c == a + (b + c)
  {
  }

  lemma {:induction false} SelectConcat(a: seq<Event>, b: seq<Event>, since: nat, repo: string)
    ensures Select(a + b, since, repo) == Select(a, since, repo) + Select(b, since, repo)
  {
    if a == [] {
      assert a + b == b;
    } else {
      assert (a + b)[1..] == a[1..] + b;
      SelectConcat(a[1..], b, since, repo);
      ConcatAssoc([a[0]], Select(a[1..], since, repo), Select(b, since, repo));
    }
  }

  lemma {:induction false} SelectNone(s: seq<Event>, since: nat, repo: string)
    requires forall i :: 0 <= i < |s| ==> s[i].id <= since
    ensures Select(s, since, repo) == []
  {
    if s != [] {
      SelectNone(s[1..], since, repo);
    }
  }

  /** Select drops nothing wanted and keeps nothing else. */
  lemma {:induction false} SelectMembers(s: seq<Event>, since: nat, repo: string)
    ensures forall e :: e in Select(s, since, repo) <==> e in s && Wanted(e, since, repo)
  {
    if s != [] {
      SelectMembers(s[1..], since, repo);
      assert s == [s[0]] + s[1..];
    }
  }

  /** Select keeps the order, so an answer lists its events by growing id. */
  lemma {:induction false} SelectIncreases(s: seq<Event>, since: nat, repo: string, above: nat)
    requires Increasing(s, above)
    ensures Increasing(Select(s, since, repo), above)
  {
    if s != [] {
      SelectIncreases(s[1..], since, repo, s[0].id);
      var rest := Select(s[1..], since, repo);
      if Wanted(s[0], since, repo) {
        assert Select(s, since, repo)[1..] == rest;
      } else {
        assert Select(s, since, repo) == rest;
        IncreasingFrom(rest, s[0].id, above);
      }
    }
  }

  // ---------- The file ----------

  function FileOf(codec: Codec, s: seq<Event>): seq<Byte> {
    if s == [] then [] else codec.encode(s[0]) + [LF] + FileOf(codec, s[1..])
  }

  /** Reading a file back: empty lines, over-long lines, undecodable lines and ids that do not grow are skipped. */
  function Accepts(codec: Codec, line: Line, last: nat): Option<Event> {
    match line
    case TooLarge => None
    case Text(bytes) =>
      if bytes == [] then None
      else match codec.decode(bytes)
        case None => None
        case Some(e) => if e.id <= last then None else Some(e)
  }

  function Loaded(codec: Codec, lines: seq<Line>, last: nat): seq<Event> {
    if lines == [] then []
    else
      match Accepts(codec, lines[0], last)
      case None => Loaded(codec, lines[1..], last)
      case Some(e) => [e] + Loaded(codec, lines[1..], e.id)
  }

  function LoadFile(codec: Codec, file: seq<Byte>): seq<Event> {
    Loaded(codec, Lines(file, MAX_LINE, AtEof), 0)
  }

  function Fitting(codec: Codec, s: seq<Event>): seq<Event> {
    if s == [] then []
    else if codec.Fits(s[0]) then [s[0]] + Fitting(codec, s[1..])
    else Fitting(codec, s[1..])
  }

  /** Any file at all, however damaged, loads as a log with strictly increasing ids. */
  lemma {:induction false} LoadedIncreases(codec: Codec, lines: seq<Line>, last: nat)
    ensures Increasing(Loaded(codec, lines, last), last)
  {
    if lines != [] {
      match Accepts(codec, lines[0], last)
      case None => LoadedIncreases(codec, lines[1..], last);
      case Some(e) => LoadedIncreases(codec, lines[1..], e.id);
    }
  }

  lemma {:induction false} LoadedConcat(codec: Codec, a: seq<Line>, b: seq<Line>, last: nat)
    ensures var first := Loaded(codec, a, last);
            Loaded(codec, a + b, last) == first + Loaded(codec, b, LastIdOf(first, last))
  {
    if a == [] {
      assert a + b == b;
    } else {
      assert (a + b)[1..] == a[1..] + b;
      match Accepts(codec, a[0], last) {
        case None => LoadedConcat(codec, a[1..], b, last);
        case Some(e) => LoadedConcat(codec, a[1..], b, e.id);
      }
    }
  }

  /** Taking in one more line moves its event, if it has one, over to what is loaded. */
  lemma LoadedStep(codec: Codec, done: seq<Event>, lines: seq<Line>, last: nat)
    requires lines != []
    ensures done + Loaded(codec, lines, last)
            == match Accepts(codec, lines[0], last)
               case None => done + Loaded(codec, lines[1..], last)
               case Some(e) => (done + [e]) + Loaded(codec, lines[1..], e.id)
  {
    match Accepts(codec, lines[0], last)
    case None =>
    case Some(e) => ConcatAssoc(done, [e], Loaded(codec, lines[1..], e.id));
  }

  lemma {:induction false} FileConcat(codec: Codec, a: seq<Event>, b: seq<Event>)
    ensures FileOf(codec, a + b) == FileOf(codec, a) + FileOf(codec, b)
  {
    if a == [] {
      assert a + b == b;
    } else {
      assert (a + b)[1..] == a[1..] + b;
      FileConcat(codec, a[1..], b);
      ConcatAssoc(codec.encode(a[0]) + [LF], FileOf(codec, a[1..]), FileOf(codec, b));
    }
  }

  /** Byte-level round trip: a written log reads back as its events that fit on a line. */
  lemma {:induction false} FileRoundTrip(codec: Codec, s: seq<Event>, last: nat)
    requires codec.Valid() && Increasing(s, last)
    ensures Loaded(codec, Lines(FileOf(codec, s), MAX_LINE, AtEof), last) == Fitting(codec, s)
  {
    if s != [] {
      var e, rest := s[0], s[1..];
      LinesOfRecord(codec.encode(e), FileOf(codec, rest), MAX_LINE, AtEof);
      var lines := Lines(FileOf(codec, rest), MAX_LINE, AtEof);
      assert Lines(FileOf(codec, s), MAX_LINE, AtEof) == [Classify(codec.encode(e), MAX_LINE)] + lines;
      FileRoundTrip(codec, rest, if codec.Fits(e) then e.id else last);
    }
  }

  lemma {:induction false} FittingShorter(codec: Codec, s: seq<Event>)
    ensures |Fitting(codec, s)| <= |s|
  {
    if s != [] {
      FittingShorter(codec, s[1..]);
    }
  }

  lemma {:induction false} FittingMeaning(codec: Codec, s: seq<Event>)
    ensures forall e :: e in Fitting(codec, s) <==> e in s && codec.Fits(e)
    ensures (forall e :: e in s ==> codec.Fits(e)) ==> Fitting(codec, s) == s
  {
    if s != [] {
      FittingMeaning(codec, s[1..]);
      assert s == [s[0]] + s[1..];
    }
  }

  lemma {:induction false} FittingConcat(codec: Codec, a: seq<Event>, b: seq<Event>)
    ensures Fitting(codec, a + b) == Fitting(codec, a) + Fitting(codec, b)
  {
    if a == [] {
      assert a + b == b;
    } else {
      assert (a + b)[1..] == a[1..] + b;
      FittingConcat(codec, a[1..], b);
      ConcatAssoc([a[0]], Fitting(codec, a[1..]), Fitting(codec, b));
    }
  }

  /** Filtering keeps a suffix intact exactly when it filters nothing out of it. */
  lemma FittingSuffix(codec: Codec, older: seq<Event>, kept: seq<Event>)
    ensures LastN(Fitting(codec, older + kept), |kept|) == kept <==> forall e :: e in kept ==> codec.Fits(e)
  {
    FittingConcat(codec, older, kept);
    FittingMeaning(codec, kept);
    FittingMeaning(codec, older + kept);
    var all := Fitting(codec, older + kept);
    if LastN(all, |kept|) == kept {
      forall e | e in kept
        ensures codec.Fits(e)
      {
        assert e in all;
      }
    }
  }

  lemma FittingKeepsNewest(codec: Codec, logged: seq<Event>, capacity: nat)
    ensures LastN(Fitting(codec, logged), capacity) == LastN(logged, capacity)
            <==> forall e :: e in LastN(logged, capacity) ==> codec.Fits(e)
  {
    var kept := LastN(logged, capacity);
    var older := logged[..|logged| - |kept|];
    assert logged == older + kept;
    FittingShorter(codec, logged);
    FittingSuffix(codec, older, kept);
  }

  /**
   Reopening a log that was written without failures restores exactly the retained events
   if and only if each retained event fits on one line.
   */
  lemma ReopenRestores(codec: Codec, logged: seq<Event>, capacity: nat)
    requires codec.Valid() && Increasing(logged, 0)
    ensures LastN(LoadFile(codec, FileOf(codec, logged)), capacity) == LastN(logged, capacity)
            <==> forall e :: e in LastN(logged, capacity) ==> codec.Fits(e)
  {
    FileRoundTrip(codec, logged, 0);
    FittingKeepsNewest(codec, logged, capacity);
  }

  /** No id is reissued after a reopen if and only if the newest event fits on a line. */
  lemma ReopenKeepsLastId(codec: Codec, logged: seq<Event>)
    requires codec.Valid() && Increasing(logged, 0)
    ensures LastIdOf(LoadFile(codec, FileOf(codec, logged)), 0) == LastIdOf(logged, 0)
            <==> logged == [] || codec.Fits(logged[|logged| - 1])
  {
    FileRoundTrip(codec, logged, 0);
    IncreasingMeans(logged, 0);
    if logged != [] {
      LastFitting(codec, logged[..|logged| - 1], logged[|logged| - 1]);
      assert logged == logged[..|logged| - 1] + [logged[|logged| - 1]];
    }
  }

  lemma LastFitting(codec: Codec, older: seq<Event>, newest: Event)
    requires 0 < newest.id && forall i :: 0 <= i < |older| ==> older[i].id < newest.id
    ensures LastIdOf(Fitting(codec, older + [newest]), 0) == newest.id <==> codec.Fits(newest)
  {
    FittingConcat(codec, older, [newest]);
    FittingMeaning(codec, older);
    var f := Fitting(codec, older);
    if f != [] {
      assert f[|f| - 1] in older;
    }
  }

  /** Loading any file and compacting it gives a file that a second load leaves unchanged, when its events fit. */
  lemma SecondLoadIsStable(codec: Codec, file: seq<Byte>, capacity: nat)
    requires codec.Valid()
    ensures var first := LastN(LoadFile(codec, file), capacity);
            && Increasing(first, 0)
            && (LoadFile(codec, FileOf(codec, first)) == first <==> forall e :: e in first ==> codec.Fits(e))
  {
    LoadedIncreases(codec, Lines(file, MAX_LINE, AtEof), 0);
    var first := LastN(LoadFile(codec, file), capacity);
    LastNIncreasing(LoadFile(codec, file), capacity);
    FileRoundTrip(codec, first, 0);
    FittingMeaning(codec, first);
  }

  lemma {:induction false} IncreasingAppend(s: seq<Event>, ev: Event, above: nat)
    requires Increasing(s, above) && LastIdOf(s, above) < ev.id
    ensures Increasing(s + [ev], above)
  {
    if s != [] {
      IncreasingAppend(s[1..], ev, s[0].id);
      assert (s + [ev])[1..] == s[1..] + [ev];
    }
  }

  lemma LastNAppend<T>(s: seq<T>, x: T, n: nat)
    requires n > 0
    ensures LastN(s + [x], n) == if |LastN(s, n)| < n then LastN(s, n) + [x] else LastN(s, n)[1..] + [x]
  {
  }

  lemma LastNIncreasing(s: seq<Event>, n: nat)
    requires Increasing(s, 0)
    ensures Increasing(LastN(s, n), 0)
  {
    IncreasingMeans(s, 0);
    IncreasingMeans(LastN(s, n), 0);
  }

  lemma ReversedAppend<T>(s: seq<T>, x: T)
    ensures Reversed(s + [x]) == [x] + Reversed(s)
  {
  }

  lemma NothingOlder(kept: seq<Event>, i: nat, since: nat, repo: string)
    requires i <= |kept| && Increasing(kept, 0) && (i == 0 || kept[i - 1].id <= since)
    ensures Select(kept[..i], since, repo) == []
  {
    IncreasingMeans(kept, 0);
    SelectNone(kept[..i], since, repo);
  }

  /** A backward scan may stop at position i once the limit is reached or everything older is too old. */
  lemma AnswerFromSuffix(kept: seq<Event>, i: nat, since: nat, repo: string, limit: nat)
    requires i <= |kept| && Increasing(kept, 0)
    requires limit > 0 ==> |Select(kept[i..], since, repo)| <= limit
    requires || i == 0 || kept[i - 1].id <= since
             || (limit > 0 && |Select(kept[i..], since, repo)| == limit)
    ensures Answer(kept, since, repo, limit) == Select(kept[i..], since, repo)
  {
    assert kept == kept[..i] + kept[i..];
    SelectConcat(kept[..i], kept[i..], since, repo);
    if i == 0 || kept[i - 1].id <= since {
      NothingOlder(kept, i, since, repo);
    }
  }

  lemma SelectStep(kept: seq<Event>, i: nat, since: nat, repo: string)
    requires i < |kept|
    ensures Select(kept[i..], since, repo)
            == var rest := Select(kept[i + 1..], since, repo);
               if Wanted(kept[i], since, repo) then [kept[i]] + rest else rest
  {
    assert kept[i..][1..] == kept[i + 1..];
  }

  // ---------- The ring ----------

  function Wrap(k: nat, n: nat): nat
    requires k < 2 * n
  {
    if k < n then k else k - n
  }

  lemma WrapIsMod(k: nat, n: nat)
    requires k < 2 * n
    ensures k % n == Wrap(k, n)
  {
    if k >= n {
      assert k == n * 1 + (k - n);
    }
  }

  /** From position i on, the `kept` events sit in the buffer from `start` on, wrapping around. */
  ghost predicate HoldsFrom(b: seq<Event>, start: nat, kept: seq<Event>, i: nat)
    requires start < |b| && i <= |kept| <= |b|
    decreases |kept| - i
  {
    i == |kept| || (b[Wrap(start + i, |b|)] == kept[i] && HoldsFrom(b, start, kept, i + 1))
  }

  ghost predicate RingHolds(b: seq<Event>, start: nat, count: nat, kept: seq<Event>) {
    start < |b| && count == |kept| <= |b| && HoldsFrom(b, start, kept, 0)
  }

  lemma {:induction false} HoldsFromMeans(b: seq<Event>, start: nat, kept: seq<Event>, i: nat)
    requires start < |b| && i <= |kept| <= |b|
    ensures HoldsFrom(b, start, kept, i) <==> forall k :: i <= k < |kept| ==> b[Wrap(start + k, |b|)] == kept[k]
    decreases |kept| - i
  {
    if i < |kept| {
      HoldsFromMeans(b, start, kept, i + 1);
    }
  }

  lemma RingGrows(b: seq<Event>, start: nat, count: nat, kept: seq<Event>, ev: Event)
    requires RingHolds(b, start, count, kept) && count < |b|
    ensures RingHolds(b[Wrap(start + count, |b|) := ev], start, count + 1, kept + [ev])
  {
    HoldsFromMeans(b, start, kept, 0);
    HoldsFromMeans(b[Wrap(start + count, |b|) := ev], start, kept + [ev], 0);
  }

  lemma RingTurns(b: seq<Event>, start: nat, kept: seq<Event>, ev: Event)
    requires RingHolds(b, start, |b|, kept)
    ensures RingHolds(b[start := ev], Wrap(start + 1, |b|), |b|, kept[1..] + [ev])
  {
    var next := Wrap(start + 1, |b|);
    HoldsFromMeans(b, start, kept, 0);
    HoldsFromMeans(b[start := ev], next, kept[1..] + [ev], 0);
    forall i | 0 <= i < |b|
      ensures b[start := ev][Wrap(next + i, |b|)] == (kept[1..] + [ev])[i]
    {
      if i < |b| - 1 {
        assert Wrap(next + i, |b|) == Wrap(start + (i + 1), |b|) != start;
      }
    }
  }

  /** What pushing an event onto a full or partly filled ring leaves in it. */
  function Pushed(kept: seq<Event>, ev: Event, capacity: nat): seq<Event> {
    if |kept| < capacity then kept + [ev]
    else if kept == [] then []
    else kept[1..] + [ev]
  }

  /** What a ring holds after a whole history of pushes. */
  ghost function Kept(history: seq<Event>, capacity: nat): seq<Event> {
    if history == [] then []
    else Pushed(Kept(history[..|history| - 1], capacity), history[|history| - 1], capacity)
  }

  /** The ring refines "the last `capacity` events". */
  lemma {:induction false} KeptIsLastN(history: seq<Event>, capacity: nat)
    requires capacity > 0
    ensures Kept(history, capacity) == LastN(history, capacity)
  {
    if history != [] {
      var h, ev := history[..|history| - 1], history[|history| - 1];
      KeptIsLastN(h, capacity);
      LastNAppend(h, ev, capacity);
      assert history == h + [ev];
    }
  }

  lemma KeptWhole(s: seq<Event>, capacity: nat)
    requires |s| <= capacity && capacity > 0
    ensures Kept(s, capacity) == s
  {
    KeptIsLastN(s, capacity);
  }

  lemma KeptAppend(history: seq<Event>, ev: Event, capacity: nat)
    ensures Kept(history + [ev], capacity) == Pushed(Kept(history, capacity), ev, capacity)
  {
    assert (history + [ev])[..|history|] == history;
  }

  lemma PushedIncreases(kept: seq<Event>, ev: Event, capacity: nat)
    requires capacity > 0 && Increasing(kept, 0) && LastIdOf(kept, 0) < ev.id
    ensures Increasing(Pushed(kept, ev, capacity), 0) && LastIdOf(Pushed(kept, ev, capacity), 0) == ev.id
  {
    IncreasingAppend(kept, ev, 0);
    if kept != [] {
      assert (kept + [ev])[1..] == kept[1..] + [ev];
      IncreasingFrom(kept[1..] + [ev], kept[0].id, 0);
    }
  }

  // ---------- Numbering ----------

  /** From position `first` on each event has the id after the one before it. */
  ghost predicate OneByOne(history: seq<Event>, first: nat) {
    && first <= |history|
    && (first < |history| ==>
          var before, last := history[..|history| - 1], history[|history| - 1];
          last.id == LastIdOf(before, 0) + 1 && OneByOne(before, first))
  }

  lemma OneMore(history: seq<Event>, ev: Event, first: nat)
    requires OneByOne(history, first)
    ensures OneByOne(history + [ev], if ev.id == LastIdOf(history, 0) + 1 then first else |history| + 1)
  {
    assert (history + [ev])[..|history|] == history;
  }

  lemma {:induction false} OneByOneMeans(history: seq<Event>, first: nat, from: nat, i: nat)
    requires OneByOne(history, first) && first <= from <= i < |history|
    ensures history[i].id == LastIdOf(history[..from], 0) + 1 + (i - from)
    decreases |history|
  {
    var before := history[..|history| - 1];
    if i < |before| {
      OneByOneMeans(before, first, from, i);
      assert before[..from] == history[..from];
    } else if from < i {
      OneByOneMeans(before, first, from, i - 1);
      assert before[..from] == history[..from];
    }
  }

  // ---------- The log ----------

  /** How the writes of one append fare: cut short after `put` bytes, and a due compaction failing before or after its rename. */
  datatype WriteFaults = WriteFaults(put: Option<nat>, rewriteFails: bool, renamed: bool)

  class EventLog {
    const capacity: nat
    const codec: Codec
    const buf: array<Event>
    var start: nat
    var count: nat
    var lastID: nat
    var onDisk: bool
    var file: seq<Byte>
    var lines: nat
    /** The retained events, oldest first. */
    ghost var kept: seq<Event>
    /** Every event accepted since the log was created or loaded, oldest first. */
    ghost var history: seq<Event>
    /** From here on the history is numbered one by one; what was loaded may have holes. */
    ghost var numberedFrom: nat
    /** The events whose encodings make up the file, as long as every write to it has succeeded. */
    ghost var logged: seq<Event>
    ghost var clean: bool

    ghost predicate Valid()
      reads this, buf
    {
      RingValid() && HistoryValid() && (onDisk ==> lines <= 2 * capacity && (clean ==> FileValid()))
    }

    /** The ring holds the retained events from `start` on. */
    ghost predicate RingValid()
      reads `start, `count, `kept, buf
    {
      0 < capacity == buf.Length && RingHolds(buf[..], start, count, kept)
    }

    /**
     The retained events are the last `capacity` events accepted; ids grow strictly up to `lastID`,
     and one by one as far as events were appended.
     */
    ghost predicate HistoryValid()
      reads `lastID, `kept, `history, `numberedFrom
    {
      && kept == Kept(history, capacity)
      && Increasing(kept, 0)
      && lastID == LastIdOf(kept, 0)
      && Increasing(history, 0) && lastID == LastIdOf(history, 0) && OneByOne(history, numberedFrom)
    }

    /** The file is the encoding of a suffix of the history that covers the retained events. */
    ghost predicate FileValid()
      reads `file, `lines, `logged, `history, `kept
    {
      && file == FileOf(codec, logged)
      && lines == |logged| <= 2 * capacity
      && Increasing(logged, 0)
      && Kept(logged, capacity) == kept
    }

    /** A log in memory; a capacity of zero means the default. */
    constructor (cap: nat, codec: Codec)
      ensures Valid() && fresh(buf) && history == [] && !onDisk
      ensures capacity == if cap == 0 then 1000 else cap
      ensures this.codec == codec
    {
      var c := if cap == 0 then DEFAULT_CAPACITY else cap;
      this.capacity, this.codec := c, codec;
      buf := new Event[c](_ => Event(0, "", ""));
      start, count, lastID, lines, file, onDisk := 0, 0, 0, 0, [], false;
      kept, history, logged, clean, numberedFrom := [], [], [], true, 0;
    }

    /** Opens a log on a file, whatever the file holds. */
    constructor Open(cap: nat, codec: Codec, contents: seq<Byte>)
      ensures Valid() && fresh(buf) && onDisk && clean
      ensures capacity == (if cap == 0 then 1000 else cap) && this.codec == codec
      ensures history == LoadFile(codec, contents)
      ensures file == FileOf(codec, Kept(LoadFile(codec, contents), capacity))
    {
      var c := if cap == 0 then DEFAULT_CAPACITY else cap;
      this.capacity, this.codec := c, codec;
      buf := new Event[c](_ => Event(0, "", ""));
      start, count, lastID, lines, file, onDisk := 0, 0, 0, 0, contents, false;
      kept, history, logged, clean, numberedFrom := [], [], [], true, 0;
      new;
      Load(contents);
      Rewrite();
    }

    method Push(ev: Event)
      requires RingValid()
      modifies `start, `count, `kept, buf
      ensures RingValid() && kept == Pushed(old(kept), ev, capacity)
    {
      ghost var b := buf[..];
      if count < capacity {
        WrapIsMod(start + count, capacity);
        RingGrows(b, start, count, kept, ev);
        var slot := (start + count) % capacity;
        buf[slot] := ev;
        assert buf[..] == b[slot := ev];
        count := count + 1;
      } else {
        RingTurns(b, start, kept, ev);
        buf[start] := ev;
        assert buf[..] == b[start := ev];
        WrapIsMod(start + 1, capacity);
        start := (start + 1) % capacity;
      }
      kept := Pushed(kept, ev, capacity);
    }

    method At(i: nat) returns (ev: Event)
      requires RingValid() && i < count
      ensures ev == kept[i]
    {
      WrapIsMod(start + i, capacity);
      HoldsFromMeans(buf[..], start, kept, 0);
      ev := buf[(start + i) % capacity];
    }

    /** Takes in an event whose id is above every earlier one. */
    method Accept(ev: Event)
      requires RingValid() && HistoryValid() && lastID < ev.id
      modifies `start, `count, `kept, `lastID, `history, `numberedFrom, buf
      ensures RingValid() && HistoryValid()
      ensures ev.id == old(lastID) + 1 ==> numberedFrom == old(numberedFrom)
      ensures history == old(history) + [ev] && lastID == ev.id && kept == Pushed(old(kept), ev, capacity)
    {
      KeptAppend(history, ev, capacity);
      PushedIncreases(kept, ev, capacity);
      OneMore(history, ev, numberedFrom);
      IncreasingAppend(history, ev, 0);
      numberedFrom := if ev.id == lastID + 1 then numberedFrom else |history| + 1;
      lastID, history := ev.id, history + [ev];
      Push(ev);
    }

    /** Reads the file into an empty log, skipping what cannot be used. */
    method Load(contents: seq<Byte>)
      requires RingValid() && HistoryValid() && history == []
      modifies `start, `count, `kept, `lastID, `history, `numberedFrom, buf
      ensures RingValid() && HistoryValid() && history == LoadFile(codec, contents)
    {
      var r := new Reader(contents, 4096, AtEof);
      ghost var whole := LoadFile(codec, contents);
      assert contents[0..] == contents;
      while true
        invariant r.Valid() && r.data == contents && r.ending == AtEof && fresh(r)
        invariant RingValid() && HistoryValid()
        invariant whole == history + Loaded(codec, Lines(contents[r.pos..], MAX_LINE, AtEof), lastID)
        decreases |contents| - r.pos
      {
        ghost var rest := Lines(contents[r.pos..], MAX_LINE, AtEof);
        var result := r.ReadLine(MAX_LINE);
        if !result.Got? {
          assert rest == [];
          break;
        }
        LoadedStep(codec, history, rest, lastID);
        match Accepts(codec, result.line, lastID) {
          case None =>
          case Some(e) => Accept(e);
        }
      }
    }

    method EncodeRetained() returns (contents: seq<Byte>)
      requires RingValid()
      ensures contents == FileOf(codec, kept)
    {
      contents := [];
      var i := 0;
      while i < count
        invariant i <= count == |kept|
        invariant contents == FileOf(codec, kept[..i])
      {
        var ev := At(i);
        FileConcat(codec, kept[..i], [ev]);
        assert kept[..i + 1] == kept[..i] + [ev];
        contents := contents + (codec.encode(ev) + [LF]);
        i := i + 1;
      }
      assert kept[..count] == kept;
    }

    /** Compaction: the file is replaced by the retained events alone. */
    method Rewrite()
      requires RingValid() && Increasing(kept, 0)
      modifies `file, `lines, `onDisk, `logged, `clean
      ensures onDisk && clean && FileValid() && logged == kept
    {
      KeptWhole(kept, capacity);
      file := EncodeRetained();
      onDisk, lines, logged, clean := true, count, kept, true;
    }

    /** A compaction that fails leaves the old file, or the new one if only opening it failed; nothing is written any more. */
    method RewriteFailing(renamed: bool)
      requires RingValid()
      modifies `file, `onDisk
      ensures !onDisk && file == if renamed then FileOf(codec, kept) else old(file)
    {
      onDisk := false;
      if renamed {
        file := EncodeRetained();
      }
    }

    /**
     Assigns the next id, keeps the event and writes it out; the file stays within twice the capacity.
     A write may be cut short, which goes unnoticed until a compaction repairs the file, and a failed
     compaction ends the writing.
     */
    method Append(repo: string, body: string, faults: WriteFaults) returns (ev: Event)
      requires Valid()
      modifies this, buf
      ensures Valid()
      ensures ev == Event(old(lastID) + 1, repo, body) && lastID == ev.id
      ensures history == old(history) + [ev] && numberedFrom == old(numberedFrom)
      ensures onDisk ==> lines <= 2 * capacity
      ensures var compacts := old(onDisk) && old(lines) + 1 > 2 * capacity;
              && (onDisk <==> old(onDisk) && !(compacts && faults.rewriteFails))
              && (onDisk ==> (clean <==> compacts || (old(clean) && faults.put.None?)))
    {
      ev := Event(lastID + 1, repo, body);
      Accept(ev);
      if onDisk {
        WriteOut(ev, faults);
      }
    }

    /** The file is one event behind the ring. */
    ghost predicate FileBehind(ev: Event)
      reads `file, `lines, `logged, `kept
    {
      && file == FileOf(codec, logged) && lines == |logged|
      && Increasing(logged, 0) && LastIdOf(logged, 0) < ev.id && kept == Pushed(Kept(logged, capacity), ev, capacity)
    }

    /** The line of one event, and a compaction when that makes the file too long. */
    method WriteOut(ev: Event, faults: WriteFaults)
      requires RingValid() && Increasing(kept, 0) && lines <= 2 * capacity && onDisk && (clean ==> FileBehind(ev))
      modifies `file, `lines, `logged, `clean, `onDisk
      ensures onDisk ==> lines <= 2 * capacity && (clean ==> FileValid())
      ensures var compacts := old(lines) + 1 > 2 * capacity;
              && (onDisk <==> !(compacts && faults.rewriteFails))
              && (onDisk ==> (clean <==> compacts || (old(clean) && faults.put.None?)))
    {
      LogToFile(ev, faults.put);
      if lines > 2 * capacity {
        if faults.rewriteFails {
          RewriteFailing(faults.renamed);
        } else {
          Rewrite();
        }
      }
    }

    /** Writes one line, or if that fails only its first `put` bytes; either way it counts as a line. */
    method LogToFile(ev: Event, put: Option<nat>)
      requires capacity > 0 && (clean ==> FileBehind(ev))
      modifies `file, `lines, `logged, `clean
      ensures lines == old(lines) + 1 && clean == (old(clean) && put.None?)
      ensures clean ==> file == FileOf(codec, logged) && lines == |logged|
      ensures clean ==> Increasing(logged, 0) && Kept(logged, capacity) == kept
    {
      var line := codec.encode(ev) + [LF];
      lines := lines + 1;
      if put.Some? {
        file := file + line[..if put.value <= |line| then put.value else |line|];
        clean := false;
        return;
      }
      if clean {
        FileConcat(codec, logged, [ev]);
        IncreasingAppend(logged, ev, 0);
        KeptAppend(logged, ev, capacity);
      }
      file := file + line;
      logged := logged + [ev];
    }

    /** The last `limit` retained events after `since` for `repo`, oldest first (no limit when it is zero). */
    method Since(since: nat, repo: string, limit: nat) returns (out: seq<Event>)
      requires RingValid() && Increasing(kept, 0)
      ensures out == Answer(kept, since, repo, limit)
    {
      out := [];
      var i: nat := count;
      while i > 0
        invariant i <= count == |kept|
        invariant Reversed(out) == Select(kept[i..], since, repo)
        invariant limit > 0 ==> |out| < limit
      {
        var ev := At(i - 1);
        if ev.id <= since {
          break;
        }
        i := i - 1;
        SelectStep(kept, i, since, repo);
        if repo != "" && ev.repo != repo {
          continue;
        }
        ReversedAppend(out, ev);
        out := out + [ev];
        if limit > 0 && |out| >= limit {
          break;
        }
      }
      AnswerFromSuffix(kept, i, since, repo, limit);
      out := Reverse(out);
    }
  }

  /**
   A clean restart: closing the log and opening its file again restores the retained events if
   and only if each of them fits on a line, and the id counter if and only if the newest one does.
   */
  method CleanRestart(log: EventLog) returns (again: EventLog)
    requires log.Valid() && log.onDisk && log.clean && log.codec.Valid()
    ensures again.Valid() && again.onDisk && again.clean && fresh(again) && again.codec == log.codec && again.capacity == log.capacity
    ensures again.kept == log.kept <==> forall e :: e in log.kept ==> log.codec.Fits(e)
    ensures again.lastID == log.lastID <==> log.kept == [] || log.codec.Fits(log.kept[|log.kept| - 1])
  {
    ReopenRestores(log.codec, log.logged, log.capacity);
    ReopenKeepsLastId(log.codec, log.logged);
    KeptIsLastN(log.logged, log.capacity);
    KeptIsLastN(LoadFile(log.codec, log.file), log.capacity);
    again := new EventLog.Open(log.capacity, log.codec, log.file);
    SameLast(log.logged, log.capacity);
    SameLast(again.history, log.capacity);
  }

  lemma SameLast(s: seq<Event>, n: nat)
    requires n > 0
    ensures LastIdOf(LastN(s, n), 0) == LastIdOf(s, 0)
    ensures s != [] ==> LastN(s, n) != [] && LastN(s, n)[|LastN(s, n)| - 1] == s[|s| - 1]
  {
  }

  // ---------- There is an encoding ----------

  function Unary(n: nat): seq<Byte> {
    if n == 0 then [2] else [1] + Unary(n - 1)
  }

  function Spell(s: string): seq<Byte> {
    if s == [] then [3] else Unary(s[0] as nat) + Spell(s[1..])
  }

  /** Not the encoding the daemon uses, but one that meets all that is asked of an encoding. */
  function Plain(e: Event): seq<Byte> {
    Unary(e.id) + Spell(e.repo) + Spell(e.body)
  }

  lemma {:induction false} UnaryReads(m: nat, n: nat, s: seq<Byte>, t: seq<Byte>)
    requires Unary(m) + s == Unary(n) + t
    ensures m == n && s == t
  {
    assert (Unary(m) + s)[0] == Unary(m)[0] && (Unary(n) + t)[0] == Unary(n)[0];
    assert (Unary(m) + s)[1..] == (Unary(n) + t)[1..];
    if m == 0 {
      assert (Unary(m) + s)[1..] == s && (Unary(n) + t)[1..] == t;
    } else {
      assert (Unary(m) + s)[1..] == Unary(m - 1) + s && (Unary(n) + t)[1..] == Unary(n - 1) + t;
      UnaryReads(m - 1, n - 1, s, t);
    }
  }

  lemma {:induction false} SpellReads(a: string, b: string, s: seq<Byte>, t: seq<Byte>)
    requires Spell(a) + s == Spell(b) + t
    ensures a == b && s == t
  {
    assert (Spell(a) + s)[0] == Spell(a)[0] && (Spell(b) + t)[0] == Spell(b)[0];
    if a == [] {
      assert (Spell(a) + s)[1..] == s && (Spell(b) + t)[1..] == t;
    } else {
      ConcatBytes(Unary(a[0] as nat), Spell(a[1..]), s);
      ConcatBytes(Unary(b[0] as nat), Spell(b[1..]), t);
      UnaryReads(a[0] as nat, b[0] as nat, Spell(a[1..]) + s, Spell(b[1..]) + t);
      SpellReads(a[1..], b[1..], s, t);
      assert a == [a[0]] + a[1..] && b == [b[0]] + b[1..];
    }
  }

  lemma ConcatBytes(a: seq<Byte>, b: seq<Byte>, c: seq<Byte>)
    ensures (a + b) + c == a + (b + c)
  {
  }

  lemma PlainReads(e: Event, f: Event)
    requires Plain(e) == Plain(f)
    ensures e == f
  {
    ConcatBytes(Unary(e.id), Spell(e.repo), Spell(e.body));
    ConcatBytes(Unary(f.id), Spell(f.repo), Spell(f.body));
    UnaryReads(e.id, f.id, Spell(e.repo) + Spell(e.body), Spell(f.repo) + Spell(f.body));
    SpellReads(e.repo, f.repo, Spell(e.body), Spell(f.body));
    assert Spell(e.body) + [] == Spell(f.body) + [];
    SpellReads(e.body, f.body, [], []);
  }

  lemma {:induction false} UnaryBytes(n: nat)
    ensures LF !in Unary(n)
  {
    if n > 0 {
      UnaryBytes(n - 1);
    }
  }

  lemma {:induction false} SpellBytes(s: string)
    ensures LF !in Spell(s) && Spell(s)[|Spell(s)| - 1] == 3
  {
    if s != [] {
      UnaryBytes(s[0] as nat);
      SpellBytes(s[1..]);
    }
  }

  /** What is asked of an encoding can be met. */
  lemma SomeCodecIsValid() returns (codec: Codec)
    ensures codec.Valid()
  {
    codec := Codec(Plain, line => if exists e :: Plain(e) == line then (var e :| Plain(e) == line; Some(e)) else None);
    forall e
      ensures LF !in Plain(e) && |Plain(e)| > 0 && TrimSuffix(Plain(e), CR) == Plain(e) && codec.decode(Plain(e)) == Some(e)
    {
      UnaryBytes(e.id);
      SpellBytes(e.repo);
      SpellBytes(e.body);
      assert Plain(e)[|Plain(e)| - 1] == Spell(e.body)[|Spell(e.body)| - 1];
      var f :| codec.decode(Plain(e)) == Some(f) && Plain(f) == Plain(e);
      PlainReads(e, f);
    }
  }

  // ---------- The condition is real: some event never fits ----------

  /** All byte strings up to a length are finitely many. */
  lemma {:induction false} ShortLines(n: nat) returns (all: set<seq<Byte>>)
    ensures forall s: seq<Byte> :: |s| <= n ==> s in all
  {
    if n == 0 {
      all := {[]};
    } else {
      var shorter := ShortLines(n - 1);
      all := shorter + set b: Byte, s <- shorter | 0 <= b < 256 :: [b] + s;
      forall s: seq<Byte> | |s| == n
        ensures s in all
      {
        assert s == [s[0]] + s[1..];
      }
    }
  }

  function Long(n: nat): string {
    seq(n, _ => 'a')
  }

  lemma {:induction false} Pigeonhole(codec: Codec, id: nat, k: nat, all: set<seq<Byte>>)
    requires codec.Valid() && forall i: nat :: i < k ==> codec.encode(Event(id, "", Long(i))) in all
    ensures k <= |all|
  {
    if k > 0 {
      var last := codec.encode(Event(id, "", Long(k - 1)));
      forall i: nat | i < k - 1
        ensures codec.encode(Event(id, "", Long(i))) in all - {last}
      {
        assert |Long(i)| != |Long(k - 1)|;
        assert codec.decode(codec.encode(Event(id, "", Long(i)))) == Some(Event(id, "", Long(i)));
        assert codec.decode(last) == Some(Event(id, "", Long(k - 1)));
      }
      Pigeonhole(codec, id, k - 1, all - {last});
    }
  }

  /** Whatever the encoding, an event with a long enough body does not fit on a line. */
  lemma SomeEventDoesNotFit(codec: Codec, id: nat) returns (e: Event)
    requires codec.Valid()
    ensures e.id == id && !codec.Fits(e)
  {
    var all := ShortLines(MAX_LINE);
    if forall i: nat :: i < |all| + 1 ==> codec.Fits(Event(id, "", Long(i))) {
      Pigeonhole(codec, id, |all| + 1, all);
    }
    var i: nat :| !codec.Fits(Event(id, "", Long(i)));
    e := Event(id, "", Long(i));
  }

  /** So a restart can lose an event and hand out its id again, with any encoding and any capacity. */
  lemma RestartCanReissue(codec: Codec, capacity: nat) returns (logged: seq<Event>)
    requires codec.Valid() && capacity > 0
    ensures Increasing(logged, 0)
    ensures LastN(LoadFile(codec, FileOf(codec, logged)), capacity) != LastN(logged, capacity)
    ensures LastIdOf(LoadFile(codec, FileOf(codec, logged)), 0) < LastIdOf(logged, 0)
  {
    var e := SomeEventDoesNotFit(codec, 1);
    logged := [e];
    assert e in LastN(logged, capacity);
    ReopenRestores(codec, logged, capacity);
    FileRoundTrip(codec, logged, 0);
  }

  function Reversed<T>(s: seq<T>): seq<T> {
    seq(|s|, i requires 0 <= i < |s| => s[|s| - 1 - i])
  }

  /** Reverses by swapping from both ends, as Since does at the end. */
  method Reverse<T>(s: seq<T>) returns (r: seq<T>)
    ensures r == Reversed(s)
  {
    r := s;
    var i, j := 0, |s| - 1;
    while i < j
      invariant |r| == |s| && 0 <= i <= j + 1 && i + j == |s| - 1
      invariant forall k :: i <= k <= j ==> r[k] == s[k]
      invariant forall k :: 0 <= k < i ==> r[k] == s[|s| - 1 - k]
      invariant forall k :: j < k < |s| ==> r[k] == s[|s| - 1 - k]
    {
      r := r[i := r[j]][j := r[i]];
      i, j := i + 1, j - 1;
    }
  }
}
