/**
 `daemon events -f`: subscribe, fetch what happened between the starting point and the
 subscription from the history, then print the live stream. Events keep arriving all along
 and the history forgets its oldest ones.
 */
module EventFollowing {
  import opened Basics
  import opened EventHistory
  import Replication

  /** A line of the subscription: a repo state, something unreadable, or an event. */
  datatype Frame = StateUpdate | Unreadable | Live(event: Event)

  datatype Outcome = Failed | Ended

  function EventsOf(frames: seq<Frame>): seq<Event> {
    if frames == [] then []
    else
      var before, last := frames[..|frames| - 1], frames[|frames| - 1];
      if last.Live? then EventsOf(before) + [last.event] else EventsOf(before)
  }

  function UpTo(events: seq<Event>, id: nat): seq<Event> {
    if events == [] then []
    else
      var before, last := events[..|events| - 1], events[|events| - 1];
      if last.id <= id then UpTo(before, id) + [last] else UpTo(before, id)
  }

  // ---------- The world around one follower ----------

  /**
   `history` is every event ever appended. The subscription was registered after the first
   `subscribed` of them, the gap query answered after the first `queried`, and the events
   that have arrived since are those up to `received`. The daemon resolves the repo a query
   names to `canonical`, the name events carry; the live stream is compared with the name
   as given.
   */
  datatype World = World(history: seq<Event>, capacity: nat, subscribed: nat, queried: nat, received: nat,
                         repo: string, canonical: string)
  {
    ghost predicate Valid() {
      && Increasing(history, 0)
      && subscribed <= queried <= |history| && subscribed <= received <= |history|
      && (repo == "" <==> canonical == "")
    }

    function HelloId(): nat
      requires subscribed <= |history|
    {
      LastIdOf(history[..subscribed], 0)
    }

    function Retained(): seq<Event>
      requires queried <= |history|
    {
      LastN(history[..queried], capacity)
    }

    /** How many of the events before the subscription the history had forgotten. */
    function Forgotten(): nat {
      var dropped := if queried <= capacity then 0 else queried - capacity;
      if dropped < subscribed then dropped else subscribed
    }

    /** Everything a follower starting at `after` is to print. */
    ghost function Expected(after: nat): seq<Event>
      requires received <= |history|
    {
      Select(history[..received], after, canonical)
    }
  }

  // ---------- Lemmas about slices of the history ----------

  lemma {:induction false} UpToKeepsAll(events: seq<Event>, id: nat)
    requires forall i :: 0 <= i < |events| ==> events[i].id <= id
    ensures UpTo(events, id) == events
  {
    if events != [] {
      UpToKeepsAll(events[..|events| - 1], id);
    }
  }

  lemma {:induction false} UpToDropsNewer(events: seq<Event>, newer: seq<Event>, id: nat)
    requires forall i :: 0 <= i < |newer| ==> newer[i].id > id
    ensures UpTo(events + newer, id) == UpTo(events, id)
  {
    if newer == [] {
      assert events + newer == events;
    } else {
      assert (events + newer)[..|events + newer| - 1] == events + newer[..|newer| - 1];
      UpToDropsNewer(events, newer[..|newer| - 1], id);
    }
  }

  lemma SelectedFrom(events: seq<Event>, since: nat, repo: string, i: nat)
    requires i < |Select(events, since, repo)|
    ensures Select(events, since, repo)[i] in events && Wanted(Select(events, since, repo)[i], since, repo)
  {
    SelectMembers(events, since, repo);
    assert Select(events, since, repo)[i] in Select(events, since, repo);
  }

  /** Events up to the hello have ids up to the one it names, later ones have higher ids. */
  lemma HelloSplits(w: World, i: nat)
    requires w.Valid() && i < |w.history|
    ensures w.history[i].id <= w.HelloId() <==> i < w.subscribed
  {
    IncreasingMeans(w.history, 0);
  }

  lemma SelectedSides(w: World, from: nat, to: nat, since: nat, repo: string)
    requires w.Valid() && from <= to <= |w.history|
    ensures to <= w.subscribed ==>
      forall i :: 0 <= i < |Select(w.history[from..to], since, repo)| ==> Select(w.history[from..to], since, repo)[i].id <= w.HelloId()
    ensures w.subscribed <= from ==>
      forall i :: 0 <= i < |Select(w.history[from..to], since, repo)| ==> Select(w.history[from..to], since, repo)[i].id > w.HelloId()
  {
    var part := w.history[from..to];
    forall i | 0 <= i < |Select(part, since, repo)|
      ensures to <= w.subscribed ==> Select(part, since, repo)[i].id <= w.HelloId()
      ensures w.subscribed <= from ==> Select(part, since, repo)[i].id > w.HelloId()
    {
      SelectedFrom(part, since, repo, i);
      var j :| 0 <= j < |part| && part[j] == Select(part, since, repo)[i];
      HelloSplits(w, from + j);
    }
  }

  lemma SelectSplit(events: seq<Event>, k: nat, since: nat, repo: string)
    requires k <= |events|
    ensures Select(events, since, repo) == Select(events[..k], since, repo) + Select(events[k..], since, repo)
  {
    assert events == events[..k] + events[k..];
    SelectConcat(events[..k], events[k..], since, repo);
  }

  // ---------- What each half prints ----------

  /** Cutting a reply at the hello drops exactly what came after the subscription. */
  lemma CutAtHello(w: World, from: nat, after: nat)
    requires w.Valid() && from <= w.queried
    ensures UpTo(Select(w.history[from..w.queried], after, w.canonical), w.HelloId())
         == if from < w.subscribed then Select(w.history[from..w.subscribed], after, w.canonical) else []
  {
    var mid := if from < w.subscribed then w.subscribed else from;
    var older, newer := Select(w.history[from..mid], after, w.canonical), Select(w.history[mid..w.queried], after, w.canonical);
    assert w.history[from..w.queried] == w.history[from..mid] + w.history[mid..w.queried];
    SelectConcat(w.history[from..mid], w.history[mid..w.queried], after, w.canonical);
    SelectedSides(w, mid, w.queried, after, w.canonical);
    UpToDropsNewer(older, newer, w.HelloId());
    if from < w.subscribed {
      SelectedSides(w, from, mid, after, w.canonical);
      UpToKeepsAll(older, w.HelloId());
    }
  }

  /** The gap reply cut at the hello is what the history still held of the time before it. */
  lemma GapPrints(w: World, after: nat)
    requires w.Valid()
    ensures UpTo(Answer(w.Retained(), after, w.canonical, 0), w.HelloId())
         == Select(w.history[w.Forgotten()..w.subscribed], after, w.canonical)
  {
    var lost := if w.queried <= w.capacity then 0 else w.queried - w.capacity;
    assert w.Retained() == w.history[lost..w.queried];
    CutAtHello(w, lost, after);
    if lost >= w.subscribed {
      assert w.history[w.Forgotten()..w.subscribed] == [];
    }
  }

  /** Before the hello nothing is wanted by a follower that starts after it. */
  lemma NothingBefore(w: World, to: nat, after: nat, repo: string)
    requires w.Valid() && to <= w.subscribed && w.HelloId() <= after
    ensures Select(w.history[..to], after, repo) == []
  {
    forall i | 0 <= i < to
      ensures w.history[..to][i].id <= after
    {
      HelloSplits(w, i);
    }
    SelectNone(w.history[..to], after, repo);
  }

  /** A higher threshold at the hello changes nothing about the live events. */
  lemma {:induction false} ThresholdIsFree(events: seq<Event>, low: nat, high: nat, repo: string)
    requires low <= high && forall i :: 0 <= i < |events| ==> events[i].id > high
    ensures Select(events, low, repo) == Select(events, high, repo)
  {
    if events != [] {
      ThresholdIsFree(events[1..], low, high, repo);
    }
  }

  lemma LivePrints(w: World, after: nat)
    requires w.Valid()
    ensures var from := if w.HelloId() > after then w.HelloId() else after;
            Select(w.history[w.subscribed..w.received], from, w.repo) == Select(w.history[w.subscribed..w.received], after, w.repo)
  {
    if w.HelloId() > after {
      forall i | w.subscribed <= i < w.received
        ensures w.history[i].id > w.HelloId()
      {
        HelloSplits(w, i);
      }
      ThresholdIsFree(w.history[w.subscribed..w.received], after, w.HelloId(), w.repo);
    }
  }

  // ---------- When the two halves make the whole ----------

  /** What a follower prints: the surviving part of the gap, then the live events. */
  ghost function Printed(w: World, after: nat): seq<Event>
    requires w.Valid()
  {
    Select(w.history[w.Forgotten()..w.subscribed], after, w.canonical)
    + Select(w.history[w.subscribed..w.received], after, w.repo)
  }

  /** Nothing the follower wants was forgotten before the gap query. */
  predicate GapRetained(w: World, after: nat)
    requires w.Forgotten() <= |w.history|
  {
    forall i :: 0 <= i < w.Forgotten() ==> !Wanted(w.history[i], after, w.canonical)
  }

  /** The given name is the one events carry, or no live event concerns either name. */
  predicate SameName(w: World, after: nat)
    requires w.subscribed <= w.received <= |w.history|
  {
    w.repo == w.canonical
    || forall i :: w.subscribed <= i < w.received ==>
         !Wanted(w.history[i], after, w.repo) && !Wanted(w.history[i], after, w.canonical)
  }

  lemma SelectEmpty(events: seq<Event>, since: nat, repo: string)
    ensures Select(events, since, repo) == [] <==> forall i :: 0 <= i < |events| ==> !Wanted(events[i], since, repo)
  {
    SelectMembers(events, since, repo);
    if Select(events, since, repo) == [] {
      forall i | 0 <= i < |events|
        ensures !Wanted(events[i], since, repo)
      {
        assert events[i] in events;
      }
    } else {
      SelectedFrom(events, since, repo, 0);
    }
  }

  lemma HalvesMatch(a: seq<Event>, b: seq<Event>, c: seq<Event>, d: seq<Event>, id: nat)
    requires a + b == c + d
    requires AllUpTo(a, id) && AllAbove(b, id) && AllUpTo(c, id) && AllAbove(d, id)
    ensures a == c && b == d
  {
    assert |a| < |a + b| ==> (a + b)[|a|] == b[0];
    assert |c| < |c + d| ==> (c + d)[|c|] == d[0];
    assert a == (a + b)[..|a|] && c == (c + d)[..|c|];
    assert b == (a + b)[|a|..] && d == (c + d)[|c|..];
  }

  lemma LiveMatches(w: World, after: nat)
    requires w.Valid()
    ensures var live := w.history[w.subscribed..w.received];
            Select(live, after, w.repo) == Select(live, after, w.canonical) <==> SameName(w, after)
  {
    var live := w.history[w.subscribed..w.received];
    SelectEmpty(live, after, w.repo);
    SelectEmpty(live, after, w.canonical);
    forall i | w.subscribed <= i < w.received
      ensures w.history[i] == live[i - w.subscribed]
    {
    }
    if Select(live, after, w.repo) == Select(live, after, w.canonical) != [] {
      SelectedFrom(live, after, w.repo, 0);
      SelectedFrom(live, after, w.canonical, 0);
    }
  }

  ghost predicate AllUpTo(events: seq<Event>, id: nat) {
    forall i :: 0 <= i < |events| ==> events[i].id <= id
  }

  ghost predicate AllAbove(events: seq<Event>, id: nat) {
    forall i :: 0 <= i < |events| ==> events[i].id > id
  }

  lemma ExpectedSplits(w: World, after: nat)
    requires w.Valid()
    ensures w.Expected(after) ==
            (Select(w.history[..w.Forgotten()], after, w.canonical)
             + Select(w.history[w.Forgotten()..w.subscribed], after, w.canonical))
            + Select(w.history[w.subscribed..w.received], after, w.canonical)
  {
    var all := w.history[..w.received];
    CutTwice(w.history, w.Forgotten(), w.subscribed, w.received);
    SelectSplit(all, w.subscribed, after, w.canonical);
    SelectSplit(all[..w.subscribed], w.Forgotten(), after, w.canonical);
  }

  lemma CutTwice(h: seq<Event>, a: nat, b: nat, c: nat)
    requires a <= b <= c <= |h|
    ensures h[..c][..b][..a] == h[..a] && h[..c][..b][a..] == h[a..b] && h[..c][b..] == h[b..c]
  {
  }

  lemma PartsLieApart(w: World, after: nat)
    requires w.Valid()
    ensures AllUpTo(Select(w.history[..w.Forgotten()], after, w.canonical), w.HelloId())
    ensures AllUpTo(Select(w.history[w.Forgotten()..w.subscribed], after, w.canonical), w.HelloId())
    ensures AllAbove(Select(w.history[w.subscribed..w.received], after, w.canonical), w.HelloId())
    ensures AllAbove(Select(w.history[w.subscribed..w.received], after, w.repo), w.HelloId())
  {
    SelectedSides(w, 0, w.Forgotten(), after, w.canonical);
    SelectedSides(w, w.Forgotten(), w.subscribed, after, w.canonical);
    SelectedSides(w, w.subscribed, w.received, after, w.canonical);
    SelectedSides(w, w.subscribed, w.received, after, w.repo);
    assert w.history[0..w.Forgotten()] == w.history[..w.Forgotten()];
  }

  /** With the parts apart by id, the wholes are equal just when nothing was lost and the live parts agree. */
  lemma PartsDecide(lost: seq<Event>, gap: seq<Event>, live: seq<Event>, wanted: seq<Event>, id: nat)
    requires AllUpTo(lost, id) && AllUpTo(gap, id) && AllAbove(live, id) && AllAbove(wanted, id)
    ensures gap + live == (lost + gap) + wanted <==> lost == [] && live == wanted
  {
    if gap + live == (lost + gap) + wanted {
      HalvesMatch(gap, live, lost + gap, wanted, id);
      assert |lost| == 0;
    } else if lost == [] {
      assert lost + gap == gap;
    }
  }

  /**
   A follower prints every event after its starting point exactly once and in order, if and
   only if none it wants was forgotten before the gap query and it names the repo as events do.
   */
  lemma FollowsExactly(w: World, after: nat)
    requires w.Valid()
    ensures Printed(w, after) == w.Expected(after) <==> GapRetained(w, after) && SameName(w, after)
  {
    var lost := w.history[..w.Forgotten()];
    ExpectedSplits(w, after);
    PartsLieApart(w, after);
    PartsDecide(Select(lost, after, w.canonical), Select(w.history[w.Forgotten()..w.subscribed], after, w.canonical),
                Select(w.history[w.subscribed..w.received], after, w.repo),
                Select(w.history[w.subscribed..w.received], after, w.canonical), w.HelloId());
    SelectEmpty(lost, after, w.canonical);
    assert forall i :: 0 <= i < |lost| ==> lost[i] == w.history[i];
    LiveMatches(w, after);
  }

  /** What is expected lists each event once, by growing id. */
  lemma ExpectedIncreases(w: World, after: nat)
    requires w.Valid()
    ensures Increasing(w.Expected(after), 0)
    ensures forall e :: e in w.Expected(after) <==> e in w.history[..w.received] && Wanted(e, after, w.canonical)
  {
    PrefixIncreases(w.history, w.received, 0);
    SelectIncreases(w.history[..w.received], after, w.canonical, 0);
    SelectMembers(w.history[..w.received], after, w.canonical);
  }

  lemma {:induction false} PrefixIncreases(events: seq<Event>, k: nat, above: nat)
    requires Increasing(events, above) && k <= |events|
    ensures Increasing(events[..k], above)
  {
    if k > 0 {
      PrefixIncreases(events[1..], k - 1, events[0].id);
      assert events[..k][1..] == events[1..][..k - 1];
    }
  }

  // ---------- The follower itself ----------

  /** Prints the part of the gap reply that the live stream will not repeat. */
  method PrintGap(events: seq<Event>, helloId: nat) returns (printed: seq<Event>)
    ensures printed == UpTo(events, helloId)
  {
    printed := [];
    for i := 0 to |events|
      invariant printed == UpTo(events[..i], helloId)
    {
      assert events[..i + 1][..i] == events[..i];
      if events[i].id <= helloId {
        printed := printed + [events[i]];
      }
    }
    assert events[..|events|] == events;
  }

  lemma {:induction false} SelectAppend(events: seq<Event>, e: Event, since: nat, repo: string)
    ensures Select(events + [e], since, repo) == Select(events, since, repo) + (if Wanted(e, since, repo) then [e] else [])
  {
    SelectConcat(events, [e], since, repo);
  }

  /** The read loop, until the connection ends. */
  method PrintLive(frames: seq<Frame>, after: nat, repo: string) returns (printed: seq<Event>)
    ensures printed == Select(EventsOf(frames), after, repo)
  {
    printed := [];
    for i := 0 to |frames|
      invariant printed == Select(EventsOf(frames[..i]), after, repo)
    {
      assert frames[..i + 1][..i] == frames[..i];
      if !frames[i].Live? || frames[i].event.id == 0 {
        if frames[i].Live? {
          SelectAppend(EventsOf(frames[..i]), frames[i].event, after, repo);
        }
        continue;
      }
      var ev := frames[i].event;
      SelectAppend(EventsOf(frames[..i]), ev, after, repo);
      if ev.id <= after || (repo != "" && ev.repo != repo) {
        continue;
      }
      printed := printed + [ev];
    }
    assert frames[..|frames|] == frames;
  }

  /** What is printed in a world whose live stream is gap-free; a failed gap query prints nothing. */
  method FollowEvents(w: World, after: nat, frames: seq<Frame>, queryFails: bool)
    returns (printed: seq<Event>, outcome: Outcome)
    requires w.Valid() && EventsOf(frames) == w.history[w.subscribed..w.received]
    ensures outcome.Ended? ==> printed == Printed(w, after)
    ensures outcome.Ended? ==> (printed == w.Expected(after) <==> GapRetained(w, after) && SameName(w, after))
    ensures outcome.Failed? ==> queryFails && printed == []
  {
    var helloId := w.HelloId();
    var from := after;
    printed := [];
    if helloId > after {
      if queryFails {
        return [], Failed;
      }
      var reply := Answer(w.Retained(), after, w.canonical, 0);
      printed := PrintGap(reply, helloId);
      GapPrints(w, after);
      from := helloId;
    } else {
      NothingBefore(w, w.subscribed, after, w.canonical);
      SelectSplit(w.history[..w.subscribed], w.Forgotten(), after, w.canonical);
      assert w.history[..w.subscribed][w.Forgotten()..] == w.history[w.Forgotten()..w.subscribed];
    }
    var live := PrintLive(frames, from, w.repo);
    LivePrints(w, after);
    FollowsExactly(w, after);
    return printed + live, Ended;
  }

  // ---------- From the server to what is printed ----------

  function Find(history: seq<Event>, id: nat): Option<Event> {
    if history == [] then None
    else if history[|history| - 1].id == id then Some(history[|history| - 1])
    else Find(history[..|history| - 1], id)
  }

  lemma {:induction false} FindsAt(history: seq<Event>, above: nat, i: nat)
    requires Increasing(history, above) && i < |history|
    ensures Find(history, history[i].id) == Some(history[i])
  {
    IncreasingMeans(history, above);
    var before := history[..|history| - 1];
    if i < |before| {
      PrefixIncreases(history, |before|, above);
      FindsAt(before, above, i);
    }
  }

  /** A frame of the server as the client reads it; an event frame carries the event with its id. */
  function Decoded(f: Replication.Frame, history: seq<Event>): Frame {
    match f
    case EventFrame(id) => (match Find(history, id) case None => Unreadable case Some(e) => Live(e))
    case StateFrame(_, _) => StateUpdate
    case _ => Unreadable
  }

  /** What the client reads after its hello. */
  function ReadSince(sent: seq<Replication.Frame>, history: seq<Event>): seq<Frame> {
    if sent == [] || sent[|sent| - 1].Hello? then []
    else ReadSince(sent[..|sent| - 1], history) + [Decoded(sent[|sent| - 1], history)]
  }

  /** The history holds what the log appended: consecutive ids from the subscription on, up to the newest. */
  ghost predicate Numbered(history: seq<Event>, subscribed: nat, helloId: nat, lastEvent: nat) {
    && Increasing(history, 0) && subscribed <= |history|
    && LastIdOf(history, 0) == lastEvent && (subscribed == |history| ==> helloId == lastEvent)
    && forall i :: subscribed <= i < |history| ==> history[i].id == helloId + 1 + (i - subscribed)
  }

  /** The ids after `helloId`, one by one, none beyond the newest event. */
  ghost predicate Consecutive(ids: seq<nat>, helloId: nat, lastEvent: nat) {
    forall k :: 0 <= k < |ids| ==> ids[k] == helloId + 1 + k && ids[k] <= lastEvent
  }

  lemma {:induction false} PrefixIsGapFree(sent: seq<Replication.Frame>, m: nat)
    requires Replication.GapFree(sent) && m <= |sent|
    ensures Replication.GapFree(sent[..m])
    decreases |sent|
  {
    if m < |sent| {
      PrefixIsGapFree(sent[..|sent| - 1], m);
      assert sent[..|sent| - 1][..m] == sent[..m];
    } else {
      assert sent[..m] == sent;
    }
  }

  /** The ids are those of the events, as the history has them. */
  ghost predicate Names(ids: seq<nat>, events: seq<Event>, history: seq<Event>) {
    |ids| == |events| && forall k :: 0 <= k < |ids| ==> Find(history, ids[k]) == Some(events[k])
  }

  ghost predicate AllFound(ids: seq<nat>, history: seq<Event>) {
    forall k :: 0 <= k < |ids| ==> Find(history, ids[k]).Some?
  }

  lemma FoundBefore(ids: seq<nat>, id: nat, history: seq<Event>)
    requires AllFound(ids + [id], history)
    ensures AllFound(ids, history) && Find(history, id).Some?
  {
    assert (ids + [id])[|ids|] == id;
    forall k | 0 <= k < |ids|
      ensures Find(history, ids[k]).Some?
    {
      assert (ids + [id])[k] == ids[k];
    }
  }

  lemma EventsOfOneMore(frames: seq<Frame>, f: Frame)
    ensures EventsOf(frames + [f]) == if f.Live? then EventsOf(frames) + [f.event] else EventsOf(frames)
  {
    assert (frames + [f])[..|frames|] == frames;
  }

  /** Every event sent since the hello is found in the history, so reading loses none. */
  lemma {:induction false} ReadsTheIds(sent: seq<Replication.Frame>, history: seq<Event>)
    requires AllFound(Replication.EventsSince(sent), history)
    ensures Names(Replication.EventsSince(sent), EventsOf(ReadSince(sent, history)), history)
    decreases |sent|
  {
    if sent != [] && !sent[|sent| - 1].Hello? {
      var before, last := sent[..|sent| - 1], sent[|sent| - 1];
      if last.EventFrame? {
        FoundBefore(Replication.EventsSince(before), last.id, history);
      }
      ReadsTheIds(before, history);
      EventsOfOneMore(ReadSince(before, history), Decoded(last, history));
    }
  }

  lemma {:induction false} EventsSinceAreSent(sent: seq<Replication.Frame>, k: nat) returns (i: nat)
    requires k < |Replication.EventsSince(sent)|
    ensures i < |sent| && sent[i] == Replication.EventFrame(Replication.EventsSince(sent)[k])
    decreases |sent|
  {
    var before := sent[..|sent| - 1];
    if k < |Replication.EventsSince(before)| {
      i := EventsSinceAreSent(before, k);
    } else {
      i := |sent| - 1;
    }
  }

  /** The world of a follower that has read the first `m` frames the server sent it. */
  function WorldOf(s: Replication.Server, c: nat, m: nat, history: seq<Event>, capacity: nat, subscribed: nat, queried: nat,
                   repo: string, canonical: string): World
    requires c in s.conns && m <= |s.conns[c].sent|
  {
    World(history, capacity, subscribed, queried,
          subscribed + |Replication.EventsSince(s.conns[c].sent[..m])|, repo, canonical)
  }

  /**
   In every reachable state of the server, whatever part of its stream a subscriber has read, still
   subscribed or dropped meanwhile, its events are the history after its subscription.
   */
  lemma ServerFeedsHistory(s: Replication.Server, c: nat, m: nat, w: World)
    requires Replication.Reachable(s) && c in s.conns && m <= |s.conns[c].sent|
    requires w.subscribed <= w.queried <= |w.history| && Numbered(w.history, w.subscribed, w.HelloId(), s.lastEvent)
    requires Replication.HelloId(s.conns[c].sent[..m]) == Some(w.HelloId())
    requires w == WorldOf(s, c, m, w.history, w.capacity, w.subscribed, w.queried, w.repo, w.canonical)
    requires w.repo == "" <==> w.canonical == ""
    ensures w.Valid()
    ensures EventsOf(ReadSince(s.conns[c].sent[..m], w.history)) == w.history[w.subscribed..w.received]
  {
    var sent := s.conns[c].sent[..m];
    var ids := Replication.EventsSince(sent);
    SentIds(s, c, m);
    IdsAreHistory(w.history, w.subscribed, w.HelloId(), s.lastEvent, ids);
    ReadsTheIds(sent, w.history);
    NamesAreUnique(ids, EventsOf(ReadSince(sent, w.history)), w.history[w.subscribed..w.received], w.history);
  }

  lemma NamesAreUnique(ids: seq<nat>, a: seq<Event>, b: seq<Event>, history: seq<Event>)
    requires Names(ids, a, history) && Names(ids, b, history)
    ensures a == b
  {
  }

  /** The ids sent since a hello follow it one by one and none is beyond the newest event. */
  lemma SentIds(s: Replication.Server, c: nat, m: nat)
    requires Replication.Reachable(s) && c in s.conns && m <= |s.conns[c].sent|
    requires Replication.HelloId(s.conns[c].sent[..m]).Some?
    ensures var ids, n := Replication.EventsSince(s.conns[c].sent[..m]), Replication.HelloId(s.conns[c].sent[..m]).value;
            Consecutive(ids, n, s.lastEvent)
  {
    var sent := s.conns[c].sent[..m];
    Replication.ReachableIsSafe(s);
    assert Replication.ConnOk(s, s.conns[c]);
    PrefixIsGapFree(s.conns[c].sent, m);
    Replication.GapFreeMeans(sent);
    var ids := Replication.EventsSince(sent);
    forall k | 0 <= k < |ids|
      ensures ids[k] <= s.lastEvent
    {
      var i := EventsSinceAreSent(sent, k);
      Replication.NoFrameIsAhead(s, c, i);
    }
  }

  /** Such ids are those of the history after the subscription. */
  lemma IdsAreHistory(history: seq<Event>, subscribed: nat, helloId: nat, lastEvent: nat, ids: seq<nat>)
    requires Numbered(history, subscribed, helloId, lastEvent) && Consecutive(ids, helloId, lastEvent)
    ensures subscribed + |ids| <= |history|
    ensures AllFound(ids, history) && Names(ids, history[subscribed..subscribed + |ids|], history)
  {
    if ids != [] {
      assert ids[|ids| - 1] <= lastEvent;
      assert history[|history| - 1].id == lastEvent;
    }
    forall k | 0 <= k < |ids|
      ensures Find(history, ids[k]) == Some(history[subscribed + k])
    {
      FindsAt(history, 0, subscribed + k);
    }
  }

  /** A log that appended everything since the subscription has numbered it as the server's stream does. */
  lemma LogIsNumbered(history: seq<Event>, first: nat, subscribed: nat)
    requires Increasing(history, 0) && OneByOne(history, first) && first <= subscribed <= |history|
    ensures Numbered(history, subscribed, LastIdOf(history[..subscribed], 0), LastIdOf(history, 0))
  {
    assert history[..|history|] == history;
    forall i | subscribed <= i < |history|
      ensures history[i].id == LastIdOf(history[..subscribed], 0) + 1 + (i - subscribed)
    {
      OneByOneMeans(history, first, subscribed, i);
    }
  }

  /**
   From the log and the server to the terminal: whatever the state of both, the events printed are the
   expected ones, under the same exact condition. The subscription came after the log was opened.
   */
  method FollowServer(log: EventLog, s: Replication.Server, c: nat, m: nat, w: World, after: nat, queryFails: bool)
    returns (printed: seq<Event>, outcome: Outcome)
    requires log.Valid() && log.history == w.history && log.capacity == w.capacity && log.lastID == s.lastEvent
    requires log.numberedFrom <= w.subscribed <= w.queried <= |w.history|
    requires Replication.Reachable(s) && c in s.conns && m <= |s.conns[c].sent|
    requires Replication.HelloId(s.conns[c].sent[..m]) == Some(w.HelloId())
    requires w == WorldOf(s, c, m, w.history, w.capacity, w.subscribed, w.queried, w.repo, w.canonical)
    requires w.repo == "" <==> w.canonical == ""
    ensures w.Valid() && (outcome.Failed? ==> queryFails && printed == [])
    ensures outcome.Ended? ==> (printed == w.Expected(after) <==> GapRetained(w, after) && SameName(w, after))
  {
    LogIsNumbered(log.history, log.numberedFrom, w.subscribed);
    ServerFeedsHistory(s, c, m, w);
    printed, outcome := FollowEvents(w, after, ReadSince(s.conns[c].sent[..m], w.history), queryFails);
  }

  // ---------- Both conditions are needed ----------

  /** A follower that names the repo otherwise than events do misses a live event. */
  lemma AliasMissesLiveEvents(repo: string, canonical: string)
    requires repo != canonical && repo != "" && canonical != ""
    ensures var w := World([Event(1, canonical, "")], 1, 0, 0, 1, repo, canonical);
            && w.Valid() && GapRetained(w, 0) && !SameName(w, 0)
            && Printed(w, 0) == [] && w.Expected(0) == [Event(1, canonical, "")]
  {
    var e := Event(1, canonical, "");
    var w := World([e], 1, 0, 0, 1, repo, canonical);
    assert w.history[0..1] == w.history[..1] == [e] && w.history[0..0] == [];
    SelectConcat([], [e], 0, repo);
    assert Select([e][1..], 0, repo) == [] && Select([e][1..], 0, canonical) == [];
    assert Wanted(w.history[0], 0, canonical);
  }

  /** A follower whose gap was forgotten before it asked misses an event. */
  lemma ForgottenGapIsMissed(repo: string)
    ensures var first, second := Event(1, repo, ""), Event(2, repo, "");
            var w := World([first, second], 1, 1, 2, 2, repo, repo);
            && w.Valid() && !GapRetained(w, 0) && SameName(w, 0)
            && Printed(w, 0) != w.Expected(0)
  {
    var first, second := Event(1, repo, ""), Event(2, repo, "");
    var w := World([first, second], 1, 1, 2, 2, repo, repo);
    IncreasingMeans(w.history, 0);
    assert Wanted(w.history[0], 0, repo);
    FollowsExactly(w, 0);
  }
}
