/**
 How repo states and events reach subscribers. An update of the store is two atomic steps,
 the change itself and the notification of the socket server, held together by a lock that
 lets only one update be in between. A subscription takes its snapshot and registers under
 the server's lock, while the store may change in between. Queues are bounded, and a
 connection whose queue overflows or whose writer fails is closed.
 */
module Replication {
  import opened Basics

  const QUEUE_SIZE: nat := 256

  /** `data` stands for everything a repo's state holds besides its sequence number. */
  datatype StoreEntry = StoreEntry(data: nat, seqNo: nat)

  datatype Frame =
    | Response
    | Hello(repos: map<Path, StoreEntry>, lastEventId: nat)
    | StateFrame(path: Path, state: StoreEntry)
    | EventFrame(id: nat)

  /** The handler goroutine of a connection: serving requests, past its locked teardown, queue closed. */
  datatype Phase = Serving | Leaving | Finished

  /**
   `sent` is everything ever put in the queue, of which the writer has taken `taken`;
   `silent` are the paths whose entry was made or loaded without a notification since the
   connection's last snapshot, or under an update that snapshot found in flight, and not
   updated since.
   */
  datatype Conn = Conn(sent: seq<Frame>, taken: nat, closed: bool, phase: Phase, silent: set<Path>)

  datatype Update = Update(path: Path, state: StoreEntry)

  /** A subscription under way, with the silent paths its own snapshot will leave behind. */
  datatype Subscribing = Subscribing(conn: nat, repos: map<Path, StoreEntry>, silent: set<Path>)

  datatype Server = Server(
    states: map<Path, StoreEntry>,
    lastSeq: nat,
    inflight: Option<Update>,
    lastEvent: nat,
    conns: map<nat, Conn>,
    subs: set<nat>,
    subscribing: Option<Subscribing>
  )

  /** A server as it starts, its event log holding events up to `lastEvent` from before. */
  function InitialAt(lastEvent: nat): Server {
    Server(map[], 0, None, lastEvent, map[], {}, None)
  }

  // ---------- Sending ----------

  predicate Accepts(c: Conn) {
    !c.closed && |c.sent| - c.taken < QUEUE_SIZE
  }

  /** A send never blocks: a full queue closes the connection for good. */
  function Send(c: Conn, f: Frame): Conn {
    if c.closed then c
    else if |c.sent| - c.taken < QUEUE_SIZE then c.(sent := c.sent + [f])
    else c.(closed := true)
  }

  /** pushLocked: to every subscriber; those that cannot take the frame are dropped. */
  function PushAll(s: Server, f: Frame): Server {
    s.(conns := map c | c in s.conns :: if c in s.subs then Send(s.conns[c], f) else s.conns[c],
       subs := set c | c in s.subs && c in s.conns && Accepts(s.conns[c]))
  }

  function SetConn(s: Server, c: nat, conn: Conn): Server {
    s.(conns := s.conns[c := conn])
  }

  function MarkSilent(silent: set<Path>, p: Path, on: bool): set<Path> {
    if on then silent + {p} else silent - {p}
  }

  function Silence(s: Server, p: Path, on: bool): Server {
    s.(conns := map c | c in s.conns :: s.conns[c].(silent := MarkSilent(s.conns[c].silent, p, on)),
       subscribing := if s.subscribing.None? then None
                      else Some(s.subscribing.value.(silent := MarkSilent(s.subscribing.value.silent, p, on))))
  }

  /** The path whose update is in flight while its entry was removed and silently made anew. */
  function Stale(s: Server): set<Path> {
    if s.inflight.None? then {}
    else
      var u := s.inflight.value;
      if u.path in s.states && s.states[u.path] != u.state then {u.path} else {}
  }

  // ---------- Atomic steps ----------

  datatype Action =
    | Ensure(path: Path)
    | LoadEntry(path: Path, data: nat)
    | RemoveEntry(path: Path)
    | Change(path: Path, data: nat, existingOnly: bool)
    | Notify
    | Emit
    | Accept(c: nat)
    | Respond(c: nat)
    | BeginSubscribe(c: nat)
    | EndSubscribe
    | WriterTakes(c: nat)
    | WriterFails(c: nat)
    | TearDown(c: nat)
    | Finish(c: nat)
    | CloseServer

  predicate Serves(s: Server, c: nat) {
    c in s.conns && s.conns[c].phase == Serving
  }

  predicate Enabled(s: Server, a: Action) {
    match a
    case Ensure(_) => true
    case LoadEntry(_, _) => true
    case RemoveEntry(_) => true
    case Change(_, _, _) => s.inflight.None?
    case Notify => s.inflight.Some? && s.subscribing.None?
    case Emit => s.subscribing.None?
    case Accept(c) => c !in s.conns
    case Respond(c) => Serves(s, c) && (s.subscribing.Some? ==> s.subscribing.value.conn != c)
    case BeginSubscribe(c) => Serves(s, c) && s.subscribing.None?
    case EndSubscribe => s.subscribing.Some?
    case WriterTakes(c) => c in s.conns && !s.conns[c].closed && s.conns[c].taken < |s.conns[c].sent|
    case WriterFails(c) => c in s.conns
    case TearDown(c) => Serves(s, c) && s.subscribing.None?
    case Finish(c) => c in s.conns && s.conns[c].phase == Leaving
    case CloseServer => s.subscribing.None?
  }

  /** The second half of a subscription: reply, hello, and only if both fit, registration. */
  function Register(s: Server): Server
    requires s.subscribing.Some?
  {
    var Subscribing(c, repos, silent) := s.subscribing.value;
    if c !in s.conns then s.(subscribing := None)
    else
      var replied := Send(s.conns[c], Response);
      var greeted := if Accepts(s.conns[c]) then Send(replied, Hello(repos, s.lastEvent)) else replied;
      var ok := Accepts(s.conns[c]) && Accepts(replied);
      SetConn(s, c, if ok then greeted.(silent := silent) else greeted).(subscribing := None, subs := if ok then s.subs + {c} else s.subs)
  }

  function Next(s: Server, a: Action): Server
    requires Enabled(s, a)
  {
    match a
    case Ensure(p) =>
      if p in s.states then s else Silence(s.(states := s.states[p := StoreEntry(0, 0)]), p, true)
    case LoadEntry(p, data) =>
      Silence(s.(states := s.states[p := StoreEntry(data, if p in s.states then s.states[p].seqNo else 0)]), p, true)
    case RemoveEntry(p) => s.(states := s.states - {p})
    case Change(p, data, existingOnly) =>
      if existingOnly && p !in s.states then s
      else
        var st := StoreEntry(data, s.lastSeq + 1);
        Silence(s.(states := s.states[p := st], lastSeq := s.lastSeq + 1, inflight := Some(Update(p, st))), p, false)
    case Notify => PushAll(s, StateFrame(s.inflight.value.path, s.inflight.value.state)).(inflight := None)
    case Emit => PushAll(s.(lastEvent := s.lastEvent + 1), EventFrame(s.lastEvent + 1))
    case Accept(c) => SetConn(s, c, Conn([], 0, false, Serving, Stale(s)))
    case Respond(c) => SetConn(s, c, Send(s.conns[c], Response))
    case BeginSubscribe(c) =>
      s.(subscribing := Some(Subscribing(c, s.states, Stale(s))))
    case EndSubscribe => Register(s)
    case WriterTakes(c) => SetConn(s, c, s.conns[c].(taken := s.conns[c].taken + 1))
    case WriterFails(c) => SetConn(s, c, s.conns[c].(closed := true))
    case TearDown(c) => SetConn(s, c, s.conns[c].(phase := Leaving)).(subs := s.subs - {c})
    case Finish(c) => SetConn(s, c, s.conns[c].(phase := Finished))
    case CloseServer => s.(conns := map c | c in s.conns :: s.conns[c].(closed := true), subs := {})
  }

  ghost predicate Runs(s: Server, actions: seq<Action>, t: Server)
    decreases |actions|
  {
    if actions == [] then s == t
    else Enabled(s, actions[0]) && Runs(Next(s, actions[0]), actions[1..], t)
  }

  // ---------- What a stream of frames says ----------

  /** What a client that applies the frames knows of the repos. */
  function ViewOf(sent: seq<Frame>): map<Path, StoreEntry> {
    if sent == [] then map[]
    else
      var before, last := sent[..|sent| - 1], sent[|sent| - 1];
      match last
      case Hello(repos, _) => repos
      case StateFrame(p, st) => ViewOf(before)[p := st]
      case _ => ViewOf(before)
  }

  /** The id the next event must carry, counting on from the last hello. */
  function NextId(sent: seq<Frame>): Option<nat> {
    if sent == [] then None
    else
      var before, last := sent[..|sent| - 1], sent[|sent| - 1];
      match last
      case Hello(_, n) => Some(n + 1)
      case EventFrame(_) => (match NextId(before) case None => None case Some(n) => Some(n + 1))
      case _ => NextId(before)
  }

  /** Every event carries the id that continues the stream since the last hello. */
  ghost predicate GapFree(sent: seq<Frame>) {
    sent == [] ||
    var before, last := sent[..|sent| - 1], sent[|sent| - 1];
    GapFree(before) && (last.EventFrame? ==> NextId(before) == Some(last.id))
  }

  ghost predicate Older(f: Frame, n: nat) {
    match f
    case StateFrame(_, st) => st.seqNo < n
    case Hello(repos, _) => forall p :: p in repos ==> repos[p].seqNo <= n
    case _ => true
  }

  /** Every state frame is newer than all frames before it and no older than any hello before it. */
  ghost predicate Ordered(sent: seq<Frame>, bound: nat) {
    sent == [] ||
    var before, last := sent[..|sent| - 1], sent[|sent| - 1];
    Older(last, bound) && Ordered(before, if last.StateFrame? then last.state.seqNo else bound)
  }

  lemma AppendUnfolds(sent: seq<Frame>, f: Frame, bound: nat)
    ensures (sent + [f])[..|sent| + 1 - 1] == sent
    ensures ViewOf(sent + [f]) ==
            match f
            case Hello(repos, _) => repos
            case StateFrame(p, st) => ViewOf(sent)[p := st]
            case _ => ViewOf(sent)
    ensures NextId(sent + [f]) ==
            match f
            case Hello(_, n) => Some(n + 1)
            case EventFrame(_) => (match NextId(sent) case None => None case Some(n) => Some(n + 1))
            case _ => NextId(sent)
    ensures GapFree(sent + [f]) <==> GapFree(sent) && (f.EventFrame? ==> NextId(sent) == Some(f.id))
    ensures Ordered(sent + [f], bound) <==> Older(f, bound) && Ordered(sent, if f.StateFrame? then f.state.seqNo else bound)
  {
    assert (sent + [f])[..|sent|] == sent;
  }

  lemma {:induction false} OrderedRelaxes(sent: seq<Frame>, bound: nat, higher: nat)
    requires Ordered(sent, bound) && bound <= higher
    ensures Ordered(sent, higher)
    decreases |sent|
  {
    if sent != [] && !sent[|sent| - 1].StateFrame? {
      OrderedRelaxes(sent[..|sent| - 1], bound, higher);
    }
  }

  /** Ordered, spelled out: sequence numbers grow strictly and never fall behind a hello. */
  lemma {:induction false} OrderedMeans(sent: seq<Frame>, bound: nat, i: nat, j: nat)
    requires Ordered(sent, bound) && i < j < |sent| && sent[j].StateFrame?
    ensures sent[i].StateFrame? ==> sent[i].state.seqNo < sent[j].state.seqNo
    ensures sent[i].Hello? ==> forall p :: p in sent[i].repos ==> sent[i].repos[p].seqNo <= sent[j].state.seqNo
    decreases |sent|
  {
    var last := sent[|sent| - 1];
    var before := sent[..|sent| - 1];
    if j < |before| {
      OrderedMeans(before, if last.StateFrame? then last.state.seqNo else bound, i, j);
    } else {
      OrderedAllOlder(before, last.state.seqNo, i);
    }
  }

  lemma {:induction false} OrderedAllOlder(sent: seq<Frame>, bound: nat, i: nat)
    requires Ordered(sent, bound) && i < |sent|
    ensures Older(sent[i], bound)
    decreases |sent|
  {
    var last := sent[|sent| - 1];
    var before := sent[..|sent| - 1];
    if i < |before| {
      OrderedAllOlder(before, if last.StateFrame? then last.state.seqNo else bound, i);
    }
  }

  /** The id announced by the last hello. */
  function HelloId(sent: seq<Frame>): Option<nat> {
    if sent == [] then None
    else if sent[|sent| - 1].Hello? then Some(sent[|sent| - 1].lastEventId)
    else HelloId(sent[..|sent| - 1])
  }

  /** The event ids since the last hello. */
  function EventsSince(sent: seq<Frame>): seq<nat> {
    if sent == [] || sent[|sent| - 1].Hello? then []
    else
      var before, last := sent[..|sent| - 1], sent[|sent| - 1];
      if last.EventFrame? then EventsSince(before) + [last.id] else EventsSince(before)
  }

  /** GapFree, spelled out: after a hello with id n come n+1, n+2, ... without gap or repeat. */
  lemma {:induction false} GapFreeMeans(sent: seq<Frame>)
    requires GapFree(sent) && HelloId(sent).Some?
    ensures NextId(sent) == Some(HelloId(sent).value + 1 + |EventsSince(sent)|)
    ensures forall k :: 0 <= k < |EventsSince(sent)| ==> EventsSince(sent)[k] == HelloId(sent).value + 1 + k
    decreases |sent|
  {
    if !sent[|sent| - 1].Hello? {
      GapFreeMeans(sent[..|sent| - 1]);
    }
  }

  // ---------- The inductive invariant ----------

  ghost function Bound(s: Server): nat {
    if s.inflight.Some? then s.lastSeq else s.lastSeq + 1
  }

  ghost predicate StoreOk(s: Server) {
    && (forall p :: p in s.states ==> s.states[p].seqNo <= s.lastSeq)
    && (s.inflight.Some? ==> s.inflight.value.state.seqNo == s.lastSeq)
  }

  /** A known repo agrees with the store unless its update is still in flight. */
  ghost predicate Agrees(s: Server, view: map<Path, StoreEntry>, silent: set<Path>, p: Path) {
    p in s.states && p !in silent && !(s.inflight.Some? && s.inflight.value.path == p) ==>
      p in view && view[p] == s.states[p]
  }

  ghost predicate InSync(s: Server, view: map<Path, StoreEntry>, silent: set<Path>) {
    forall p :: Agrees(s, view, silent, p)
  }

  /** The update in flight is what the store holds, unless the entry was silently replaced. */
  ghost predicate InflightOk(s: Server, silent: set<Path>) {
    s.inflight.Some? ==>
      var u := s.inflight.value;
      u.path in s.states && u.path !in silent ==> s.states[u.path] == u.state
  }

  ghost predicate ConnOk(s: Server, k: Conn) {
    && k.taken <= |k.sent| <= k.taken + QUEUE_SIZE
    && GapFree(k.sent) && Ordered(k.sent, Bound(s)) && InflightOk(s, k.silent)
  }

  ghost predicate SubOk(s: Server, k: Conn) {
    && k.phase == Serving
    && (!k.closed ==> NextId(k.sent) == Some(s.lastEvent + 1) && InSync(s, ViewOf(k.sent), k.silent))
  }

  ghost predicate HolderOk(s: Server) {
    s.subscribing.Some? ==>
      var Subscribing(c, repos, silent) := s.subscribing.value;
      && c in s.conns && s.conns[c].phase == Serving
      && (forall p :: p in repos ==> repos[p].seqNo <= s.lastSeq)
      && InflightOk(s, silent) && InSync(s, repos, silent)
  }

  ghost predicate Safe(s: Server) {
    && StoreOk(s) && HolderOk(s)
    && (forall c :: c in s.conns ==> ConnOk(s, s.conns[c]))
    && (forall c :: c in s.subs ==> c in s.conns && SubOk(s, s.conns[c]))
  }

  // ---------- Steps keep it ----------

  lemma SendKeepsConn(s: Server, k: Conn, f: Frame)
    requires ConnOk(s, k) && !f.EventFrame? && !f.StateFrame? && Older(f, Bound(s))
    ensures ConnOk(s, Send(k, f))
  {
    AppendUnfolds(k.sent, f, Bound(s));
  }

  lemma RespondKeepsSub(s: Server, k: Conn)
    requires SubOk(s, k)
    ensures SubOk(s, Send(k, Response))
  {
    AppendUnfolds(k.sent, Response, 0);
  }

  lemma EmitKeeps(s: Server, k: Conn)
    requires ConnOk(s, k) && SubOk(s, k)
    ensures var t := s.(lastEvent := s.lastEvent + 1);
            var k' := Send(k, EventFrame(s.lastEvent + 1));
            ConnOk(t, k') && (Accepts(k) ==> SubOk(t, k'))
  {
    var f := EventFrame(s.lastEvent + 1);
    AppendUnfolds(k.sent, f, Bound(s));
    var t := s.(lastEvent := s.lastEvent + 1);
    if Accepts(k) {
      forall p
        ensures Agrees(t, ViewOf(Send(k, f).sent), k.silent, p)
      {
        assert Agrees(s, ViewOf(k.sent), k.silent, p);
      }
    }
  }

  lemma NotifyKeepsSub(s: Server, k: Conn)
    requires s.inflight.Some? && StoreOk(s) && ConnOk(s, k) && SubOk(s, k)
    ensures var t := s.(inflight := None);
            var k' := Send(k, StateFrame(s.inflight.value.path, s.inflight.value.state));
            ConnOk(t, k') && (Accepts(k) ==> SubOk(t, k'))
  {
    var t := s.(inflight := None);
    var u := s.inflight.value;
    var f := StateFrame(u.path, u.state);
    AppendUnfolds(k.sent, f, Bound(t));
    OrderedRelaxes(k.sent, Bound(s), Bound(t));
    if Accepts(k) {
      forall p
        ensures Agrees(t, ViewOf(Send(k, f).sent), k.silent, p)
      {
        assert Agrees(s, ViewOf(k.sent), k.silent, p);
      }
    }
  }

  lemma NotifyKeepsConn(s: Server, k: Conn)
    requires s.inflight.Some? && ConnOk(s, k)
    ensures ConnOk(s.(inflight := None), k)
  {
    OrderedRelaxes(k.sent, Bound(s), Bound(s.(inflight := None)));
  }

  lemma GreetKeeps(s: Server, k: Conn, repos: map<Path, StoreEntry>)
    requires ConnOk(s, k) && k.phase == Serving
    requires forall p :: p in repos ==> repos[p].seqNo <= s.lastSeq
    requires InSync(s, repos, k.silent)
    ensures var k' := Send(k, Hello(repos, s.lastEvent));
            ConnOk(s, k') && (SubOk(s, k) || Accepts(k) ==> SubOk(s, k'))
  {
    var f := Hello(repos, s.lastEvent);
    AppendUnfolds(k.sent, f, Bound(s));
    SendKeepsConn(s, k, f);
  }

  // ---------- Whole steps ----------

  lemma PushKeepsSafe(s: Server, a: Action)
    requires Safe(s) && Enabled(s, a) && (a.Notify? || a.Emit?)
    ensures Safe(Next(s, a))
  {
    var t := Next(s, a);
    forall c | c in t.conns
      ensures ConnOk(t, t.conns[c]) && (c in t.subs ==> SubOk(t, t.conns[c]))
    {
      var k := s.conns[c];
      assert ConnOk(s, k);
      if c in s.subs {
        if a.Notify? {
          NotifyKeepsSub(s, k);
          SameConn(s.(inflight := None), t, t.conns[c]);
        } else {
          EmitKeeps(s, k);
          SameConn(s.(lastEvent := s.lastEvent + 1), t, t.conns[c]);
        }
      } else {
        if a.Notify? {
          NotifyKeepsConn(s, k);
          SameConn(s.(inflight := None), t, k);
        } else {
          SameConn(s, t, k);
        }
      }
    }
  }

  /** What ConnOk and SubOk depend on. */
  lemma SameConn(s: Server, t: Server, k: Conn)
    requires s.states == t.states && s.inflight == t.inflight && s.lastSeq == t.lastSeq
    ensures ConnOk(s, k) ==> ConnOk(t, k)
    ensures s.lastEvent == t.lastEvent && SubOk(s, k) ==> SubOk(t, k)
    ensures forall view, silent :: InSync(s, view, silent) ==> InSync(t, view, silent)
  {
    forall view, silent | InSync(s, view, silent)
      ensures InSync(t, view, silent)
    {
      forall p
        ensures Agrees(t, view, silent, p)
      {
        assert Agrees(s, view, silent, p);
      }
    }
  }

  lemma HolderKept(s: Server, t: Server)
    requires HolderOk(s) && t.subscribing == s.subscribing
    requires t.states == s.states && t.inflight == s.inflight && t.lastSeq == s.lastSeq
    requires s.subscribing.Some? ==>
      var c := s.subscribing.value.conn; c in t.conns && t.conns[c].phase == Serving
    ensures HolderOk(t)
  {
    if s.subscribing.Some? {
      var h := s.subscribing.value;
      forall p
        ensures Agrees(t, h.repos, h.silent, p)
      {
        assert Agrees(s, h.repos, h.silent, p);
      }
    }
  }

  /** A step that touches one connection only. */
  lemma OneConnKeepsSafe(s: Server, t: Server, c: nat)
    requires Safe(s) && c in s.conns
    requires t.states == s.states && t.inflight == s.inflight && t.lastSeq == s.lastSeq && t.lastEvent == s.lastEvent
    requires c in t.conns && t.conns == s.conns[c := t.conns[c]]
    requires ConnOk(s, t.conns[c]) && (c in t.subs ==> SubOk(s, t.conns[c]))
    requires t.subs - {c} <= s.subs
    requires HolderOk(t)
    ensures Safe(t)
  {
    forall d | d in t.conns
      ensures ConnOk(t, t.conns[d]) && (d in t.subs ==> SubOk(t, t.conns[d]))
    {
      SameConn(s, t, t.conns[d]);
      if d != c {
        assert t.conns[d] == s.conns[d];
        assert d in t.subs ==> d in t.subs - {c};
      }
    }
    forall d | d in t.subs
      ensures d in t.conns
    {
      assert d != c ==> d in t.subs - {c};
    }
  }

  lemma ConnStepKeepsSafe(s: Server, a: Action)
    requires Safe(s) && Enabled(s, a)
    requires a.Respond? || a.WriterTakes? || a.WriterFails? || a.TearDown? || a.Finish?
    ensures Safe(Next(s, a))
  {
    var t := Next(s, a);
    var k := s.conns[a.c];
    assert ConnOk(s, k);
    if a.Respond? {
      SendKeepsConn(s, k, Response);
      if a.c in s.subs {
        RespondKeepsSub(s, k);
      }
    }
    HolderKept(s, t);
    OneConnKeepsSafe(s, t, a.c);
  }

  lemma AcceptKeepsSafe(s: Server, a: Action)
    requires Safe(s) && Enabled(s, a) && a.Accept?
    ensures Safe(Next(s, a))
  {
    var t := Next(s, a);
    forall d | d in t.conns
      ensures ConnOk(t, t.conns[d]) && (d in t.subs ==> SubOk(t, t.conns[d]))
    {
      SameConn(s, t, t.conns[d]);
      if d == a.c {
        assert InflightOk(t, Stale(s));
      }
    }
    HolderKept(s, t);
  }

  lemma BeginSubscribeKeepsSafe(s: Server, a: Action)
    requires Safe(s) && Enabled(s, a) && a.BeginSubscribe?
    ensures Safe(Next(s, a))
  {
    var t := Next(s, a);
    forall p
      ensures Agrees(t, s.states, Stale(s), p)
    {
    }
    OneConnKeepsSafe(s, t, a.c);
  }

  lemma EndSubscribeKeepsSafe(s: Server, a: Action)
    requires Safe(s) && Enabled(s, a) && a.EndSubscribe?
    ensures Safe(Next(s, a))
  {
    var t := Next(s, a);
    var Subscribing(c, repos, silent) := s.subscribing.value;
    var k := s.conns[c];
    var replied := Send(k, Response);
    assert ConnOk(s, k);
    SendKeepsConn(s, k, Response);
    if c in s.subs {
      RespondKeepsSub(s, k);
    }
    if Accepts(k) && Accepts(replied) {
      GreetKeeps(s, replied.(silent := silent), repos);
    }
    OneConnKeepsSafe(s, t, c);
  }

  lemma CloseServerKeepsSafe(s: Server, a: Action)
    requires Safe(s) && Enabled(s, a) && a.CloseServer?
    ensures Safe(Next(s, a))
  {
    var t := Next(s, a);
    forall c | c in t.conns
      ensures ConnOk(t, t.conns[c])
    {
      assert ConnOk(s, s.conns[c]);
    }
  }

  // ---------- Steps of the store ----------

  /** One connection over a step that silently sets, or drops, the entry of `p`. */
  lemma SilentStepKeepsSync(s: Server, t: Server, p: Path, view: map<Path, StoreEntry>, silent: set<Path>)
    requires t.inflight == s.inflight && t.lastSeq == s.lastSeq && t.states - {p} == s.states - {p}
    requires InflightOk(s, silent)
    ensures InflightOk(t, silent + {p}) && (p !in t.states ==> InflightOk(t, silent))
    ensures InSync(s, view, silent) ==> InSync(t, view, silent + {p})
    ensures InSync(s, view, silent) && p !in t.states ==> InSync(t, view, silent)
  {
    forall q | q != p
      ensures q in t.states <==> q in s.states
      ensures q in t.states ==> t.states[q] == s.states[q]
    {
      assert q in t.states - {p} <==> q in s.states - {p};
      assert q in t.states - {p} ==> (t.states - {p})[q] == (s.states - {p})[q];
    }
    if InSync(s, view, silent) {
      forall q
        ensures Agrees(t, view, silent + {p}, q) && (p !in t.states ==> Agrees(t, view, silent, q))
      {
        assert Agrees(s, view, silent, q);
      }
    }
  }

  lemma SilentKeepsSafe(s: Server, a: Action)
    requires Safe(s) && Enabled(s, a) && (a.Ensure? || a.LoadEntry? || a.RemoveEntry?)
    ensures Safe(Next(s, a))
  {
    var t := Next(s, a);
    var p := a.path;
    if t != s {
      forall c | c in t.conns
        ensures ConnOk(t, t.conns[c]) && (c in t.subs ==> SubOk(t, t.conns[c]))
      {
        var k := s.conns[c];
        assert ConnOk(s, k);
        SilentStepKeepsSync(s, t, p, ViewOf(k.sent), k.silent);
      }
      if s.subscribing.Some? {
        SilentStepKeepsSync(s, t, p, s.subscribing.value.repos, s.subscribing.value.silent);
      }
    }
  }

  /** One connection over an update of `p` that is now in flight. */
  lemma ChangeKeepsSync(s: Server, a: Action, view: map<Path, StoreEntry>, silent: set<Path>)
    requires Enabled(s, a) && a.Change? && Next(s, a) != s
    ensures InflightOk(Next(s, a), silent - {a.path})
    ensures InSync(s, view, silent) ==> InSync(Next(s, a), view, silent - {a.path})
  {
    var t := Next(s, a);
    if InSync(s, view, silent) {
      forall q
        ensures Agrees(t, view, silent - {a.path}, q)
      {
        assert Agrees(s, view, silent, q);
      }
    }
  }

  lemma ChangeKeepsSafe(s: Server, a: Action)
    requires Safe(s) && Enabled(s, a) && a.Change?
    ensures Safe(Next(s, a))
  {
    var t := Next(s, a);
    if t != s {
      forall c | c in t.conns
        ensures ConnOk(t, t.conns[c]) && (c in t.subs ==> SubOk(t, t.conns[c]))
      {
        var k := s.conns[c];
        assert ConnOk(s, k);
        ChangeKeepsSync(s, a, ViewOf(k.sent), k.silent);
      }
      if s.subscribing.Some? {
        ChangeKeepsSync(s, a, s.subscribing.value.repos, s.subscribing.value.silent);
      }
    }
  }

  /** Every step of any thread keeps the invariant. */
  lemma StepKeepsSafe(s: Server, a: Action)
    requires Safe(s) && Enabled(s, a)
    ensures Safe(Next(s, a))
  {
    match a
    case Ensure(_) => SilentKeepsSafe(s, a);
    case LoadEntry(_, _) => SilentKeepsSafe(s, a);
    case RemoveEntry(_) => SilentKeepsSafe(s, a);
    case Change(_, _, _) => ChangeKeepsSafe(s, a);
    case Notify => PushKeepsSafe(s, a);
    case Emit => PushKeepsSafe(s, a);
    case Accept(_) => AcceptKeepsSafe(s, a);
    case BeginSubscribe(_) => BeginSubscribeKeepsSafe(s, a);
    case EndSubscribe => EndSubscribeKeepsSafe(s, a);
    case CloseServer => CloseServerKeepsSafe(s, a);
    case _ => ConnStepKeepsSafe(s, a);
  }

  lemma {:induction false} RunsKeepSafe(s: Server, actions: seq<Action>, t: Server)
    requires Safe(s) && Runs(s, actions, t)
    ensures Safe(t)
    decreases |actions|
  {
    if actions != [] {
      StepKeepsSafe(s, actions[0]);
      RunsKeepSafe(Next(s, actions[0]), actions[1..], t);
    }
  }

  // ---------- What it gives over whole runs ----------

  ghost predicate Reachable(s: Server) {
    exists lastEvent, actions :: Runs(InitialAt(lastEvent), actions, s)
  }

  lemma ReachableIsSafe(s: Server)
    requires Reachable(s)
    ensures Safe(s)
  {
    var lastEvent, actions :| Runs(InitialAt(lastEvent), actions, s);
    RunsKeepSafe(InitialAt(lastEvent), actions, s);
  }

  /** On every connection sequence numbers grow strictly and never fall behind a hello. */
  lemma StatesArriveInOrder(s: Server, c: nat, i: nat, j: nat)
    requires Reachable(s) && c in s.conns
    requires i < j < |s.conns[c].sent| && s.conns[c].sent[j].StateFrame?
    ensures var earlier, n := s.conns[c].sent[i], s.conns[c].sent[j].state.seqNo;
            && (earlier.StateFrame? ==> earlier.state.seqNo < n)
            && (earlier.Hello? ==> forall p :: p in earlier.repos ==> earlier.repos[p].seqNo <= n)
  {
    ReachableIsSafe(s);
    assert ConnOk(s, s.conns[c]);
    OrderedMeans(s.conns[c].sent, Bound(s), i, j);
  }

  /** After a hello with id n a subscriber is sent exactly n+1, n+2, ..., up to the newest event. */
  lemma EventsArriveWithoutGap(s: Server, c: nat)
    requires Reachable(s) && c in s.subs && c in s.conns && !s.conns[c].closed
    ensures var sent := s.conns[c].sent;
            && HelloId(sent).Some?
            && |EventsSince(sent)| == s.lastEvent - HelloId(sent).value
            && forall k :: 0 <= k < |EventsSince(sent)| ==> EventsSince(sent)[k] == HelloId(sent).value + 1 + k
  {
    ReachableIsSafe(s);
    var sent := s.conns[c].sent;
    assert ConnOk(s, s.conns[c]) && SubOk(s, s.conns[c]);
    NextIdNeedsHello(sent);
    GapFreeMeans(sent);
  }

  /** A connection that is no longer fed was still sent an unbroken stretch. */
  lemma DroppedStreamHasNoGap(s: Server, c: nat)
    requires Reachable(s) && c in s.conns && HelloId(s.conns[c].sent).Some?
    ensures var sent := s.conns[c].sent;
            forall k :: 0 <= k < |EventsSince(sent)| ==> EventsSince(sent)[k] == HelloId(sent).value + 1 + k
  {
    ReachableIsSafe(s);
    assert ConnOk(s, s.conns[c]);
    GapFreeMeans(s.conns[c].sent);
  }

  lemma {:induction false} NextIdNeedsHello(sent: seq<Frame>)
    ensures NextId(sent).Some? <==> HelloId(sent).Some?
    decreases |sent|
  {
    if sent != [] {
      NextIdNeedsHello(sent[..|sent| - 1]);
    }
  }

  /** The connections a step calls send on. */
  function Targets(s: Server, a: Action): set<nat> {
    match a
    case Notify => s.subs
    case Emit => s.subs
    case Respond(c) => {c}
    case EndSubscribe => if s.subscribing.Some? then {s.subscribing.value.conn} else {}
    case _ => {}
  }

  /** Nothing sends on a queue that finish has closed, and nothing else fills a queue. */
  lemma NoSendOnFinishedQueue(s: Server, a: Action, c: nat)
    requires Reachable(s) && Enabled(s, a)
    ensures c in Targets(s, a) ==> c in s.conns && s.conns[c].phase == Serving
    ensures c in s.conns && c !in Targets(s, a) ==> c in Next(s, a).conns && Next(s, a).conns[c].sent == s.conns[c].sent
  {
    ReachableIsSafe(s);
    if c in s.subs {
      assert SubOk(s, s.conns[c]);
    }
  }

  /** A subscriber that does not get a frame is gone from the set and closed. */
  lemma OverflowDrops(s: Server, a: Action, c: nat)
    requires Reachable(s) && Enabled(s, a) && (a.Emit? || a.Notify?) && c in s.subs
    ensures c in s.conns && c in Next(s, a).conns
    ensures var before, after := s.conns[c], Next(s, a).conns[c];
            if !before.closed && |before.sent| - before.taken < 256
            then c in Next(s, a).subs && |after.sent| == |before.sent| + 1 && !after.closed
            else c !in Next(s, a).subs && after.sent == before.sent && after.closed
  {
    ReachableIsSafe(s);
  }

  /** A closed connection is never sent anything again, and once dropped is never fed again. */
  lemma {:induction false} ClosedIsForGood(s: Server, actions: seq<Action>, t: Server, c: nat)
    requires Runs(s, actions, t) && c in s.conns && s.conns[c].closed
    ensures c in t.conns && t.conns[c].closed && t.conns[c].sent == s.conns[c].sent
    ensures c !in s.subs ==> c !in t.subs
    decreases |actions|
  {
    if actions != [] {
      ClosedIsForGood(Next(s, actions[0]), actions[1..], t, c);
    }
  }

  /** Once a connection's writer has failed it is closed, and the next push drops it. */
  lemma FailedWriterIsDropped(s: Server, c: nat, a: Action)
    requires Reachable(s) && Enabled(s, WriterFails(c)) && (a.Emit? || a.Notify?) && Enabled(Next(s, WriterFails(c)), a)
    ensures c in Next(s, WriterFails(c)).conns && Next(s, WriterFails(c)).conns[c].closed
    ensures c !in Next(Next(s, WriterFails(c)), a).subs
  {
    ReachableIsSafe(s);
  }

  /** Closing the server closes every connection and leaves no subscriber. */
  lemma ClosingEndsAll(s: Server, c: nat)
    requires Enabled(s, CloseServer)
    ensures Next(s, CloseServer).subs == {}
    ensures c in s.conns ==> c in Next(s, CloseServer).conns && Next(s, CloseServer).conns[c].closed
  {
  }

  // ---------- No frame speaks of an event to come ----------

  ghost predicate Dated(f: Frame, lastEvent: nat) {
    match f
    case EventFrame(id) => id <= lastEvent
    case Hello(_, n) => n <= lastEvent
    case _ => true
  }

  ghost predicate DatedAt(sent: seq<Frame>, lastEvent: nat, i: int) {
    0 <= i < |sent| ==> Dated(sent[i], lastEvent)
  }

  ghost predicate AllDated(sent: seq<Frame>, lastEvent: nat) {
    forall i :: DatedAt(sent, lastEvent, i)
  }

  lemma DatedLater(sent: seq<Frame>, lastEvent: nat, later: nat)
    requires AllDated(sent, lastEvent) && lastEvent <= later
    ensures AllDated(sent, later)
  {
    forall i
      ensures DatedAt(sent, later, i)
    {
      assert DatedAt(sent, lastEvent, i);
    }
  }

  lemma SendKeepsDated(k: Conn, f: Frame, lastEvent: nat)
    requires AllDated(k.sent, lastEvent) && Dated(f, lastEvent)
    ensures AllDated(Send(k, f).sent, lastEvent)
  {
    var sent := Send(k, f).sent;
    forall i
      ensures DatedAt(sent, lastEvent, i)
    {
      assert DatedAt(k.sent, lastEvent, i);
    }
  }

  ghost predicate NothingAhead(s: Server) {
    forall c :: c in s.conns ==> AllDated(s.conns[c].sent, s.lastEvent)
  }

  lemma PushKeepsNothingAhead(s: Server, f: Frame)
    requires NothingAhead(s) && Dated(f, s.lastEvent)
    ensures NothingAhead(PushAll(s, f))
  {
    forall c | c in s.conns
      ensures AllDated(PushAll(s, f).conns[c].sent, s.lastEvent)
    {
      SendKeepsDated(s.conns[c], f, s.lastEvent);
    }
  }

  lemma StepKeepsNothingAhead(s: Server, a: Action)
    requires NothingAhead(s) && Enabled(s, a)
    ensures NothingAhead(Next(s, a))
  {
    match a
    case Notify => PushKeepsNothingAhead(s, StateFrame(s.inflight.value.path, s.inflight.value.state));
    case Emit =>
      forall c | c in s.conns
        ensures AllDated(s.conns[c].sent, s.lastEvent + 1)
      {
        DatedLater(s.conns[c].sent, s.lastEvent, s.lastEvent + 1);
      }
      PushKeepsNothingAhead(s.(lastEvent := s.lastEvent + 1), EventFrame(s.lastEvent + 1));
    case Respond(c) => SendKeepsDated(s.conns[c], Response, s.lastEvent);
    case EndSubscribe =>
      var Subscribing(c, repos, _) := s.subscribing.value;
      if c in s.conns {
        SendKeepsDated(s.conns[c], Response, s.lastEvent);
        SendKeepsDated(Send(s.conns[c], Response), Hello(repos, s.lastEvent), s.lastEvent);
      }
    case _ =>
      forall c | c in Next(s, a).conns
        ensures AllDated(Next(s, a).conns[c].sent, s.lastEvent)
      {
      }
  }

  lemma {:induction false} RunsKeepNothingAhead(s: Server, actions: seq<Action>, t: Server)
    requires NothingAhead(s) && Runs(s, actions, t)
    ensures NothingAhead(t)
    decreases |actions|
  {
    if actions != [] {
      StepKeepsNothingAhead(s, actions[0]);
      RunsKeepNothingAhead(Next(s, actions[0]), actions[1..], t);
    }
  }

  /** No connection was ever sent an event or a hello beyond the newest event. */
  lemma NoFrameIsAhead(s: Server, c: nat, i: nat)
    requires Reachable(s) && c in s.conns && i < |s.conns[c].sent|
    ensures Dated(s.conns[c].sent[i], s.lastEvent)
  {
    var lastEvent, actions :| Runs(InitialAt(lastEvent), actions, s);
    RunsKeepNothingAhead(InitialAt(lastEvent), actions, s);
    assert DatedAt(s.conns[c].sent, s.lastEvent, i);
  }

  // ---------- The view of a subscriber ----------

  /** No connection has `p` silently behind. */
  ghost predicate Announced(s: Server, p: Path) {
    && p !in Stale(s)
    && (forall c :: c in s.conns ==> p !in s.conns[c].silent)
    && (s.subscribing.Some? ==> p !in s.subscribing.value.silent)
  }

  /** The steps that set the entry of `p` without notifying anyone. */
  predicate SetsSilently(s: Server, a: Action, p: Path) {
    (a == Ensure(p) && p !in s.states) || (a.LoadEntry? && a.path == p)
  }

  ghost predicate NeverSetsSilently(s: Server, actions: seq<Action>, p: Path)
    decreases |actions|
  {
    actions == [] ||
    (Enabled(s, actions[0]) && !SetsSilently(s, actions[0], p) && NeverSetsSilently(Next(s, actions[0]), actions[1..], p))
  }

  lemma UpdateAnnounces(s: Server, a: Action)
    requires Safe(s) && Enabled(s, a) && a.Change? && (a.existingOnly ==> a.path in s.states)
    ensures Announced(Next(s, a), a.path)
  {
  }

  lemma StepKeepsAnnounced(s: Server, a: Action, p: Path)
    requires Announced(s, p) && Enabled(s, a) && !SetsSilently(s, a, p)
    ensures Announced(Next(s, a), p)
  {
    var t := Next(s, a);
    if a.EndSubscribe? {
      forall c | c in t.conns
        ensures p !in t.conns[c].silent
      {
        assert c in s.conns;
      }
    }
  }

  lemma {:induction false} RunsKeepAnnounced(s: Server, actions: seq<Action>, t: Server, p: Path)
    requires Announced(s, p) && Runs(s, actions, t) && NeverSetsSilently(s, actions, p)
    ensures Announced(t, p)
    decreases |actions|
  {
    if actions != [] {
      StepKeepsAnnounced(s, actions[0], p);
      RunsKeepAnnounced(Next(s, actions[0]), actions[1..], t, p);
    }
  }

  /**
   From the first update of `p` on, for as long as its entry is not silently set again,
   every open subscriber's view of `p` is the store's, except while that update is in
   flight, whatever else is updated, subscribed, dropped or removed meanwhile.
   */
  lemma SubscribersMirrorTheStore(s: Server, update: Action, actions: seq<Action>, t: Server, c: nat)
    requires Reachable(s) && Enabled(s, update) && update.Change? && (update.existingOnly ==> update.path in s.states)
    requires Runs(Next(s, update), actions, t) && NeverSetsSilently(Next(s, update), actions, update.path)
    requires c in t.subs && c in t.conns && !t.conns[c].closed
    ensures var p, view := update.path, ViewOf(t.conns[c].sent);
            p in t.states && !(t.inflight.Some? && t.inflight.value.path == p) ==> p in view && view[p] == t.states[p]
  {
    ReachableIsSafe(s);
    StepKeepsSafe(s, update);
    RunsKeepSafe(Next(s, update), actions, t);
    UpdateAnnounces(s, update);
    RunsKeepAnnounced(Next(s, update), actions, t, update.path);
    var k := t.conns[c];
    assert SubOk(t, k);
    assert Agrees(t, ViewOf(k.sent), k.silent, update.path);
  }

  // ---------- The view of one subscriber ----------

  /** The subscription of `c` has taken its snapshot and not yet answered. */
  predicate Pending(s: Server, c: nat) {
    s.subscribing.Some? && s.subscribing.value.conn == c
  }

  /** The connection knows the entry of `p`, or will once its subscription is answered. */
  ghost predicate Informed(s: Server, c: nat, p: Path) {
    && p !in Stale(s)
    && (c in s.conns && !s.conns[c].closed && !Pending(s, c) ==> p !in s.conns[c].silent)
    && (Pending(s, c) ==> p !in s.subscribing.value.silent)
  }

  lemma SnapshotInforms(s: Server, a: Action, p: Path)
    requires Enabled(s, a) && a.BeginSubscribe? && p !in Stale(s)
    ensures Informed(Next(s, a), a.c, p)
  {
  }

  /** An answered subscription either took the snapshot's knowledge over or closed the connection. */
  lemma AnswerKeepsInformed(s: Server, c: nat, p: Path)
    requires Safe(s) && Informed(s, c, p) && s.subscribing.Some?
    ensures Informed(Register(s), c, p)
  {
    assert s.subscribing.value.conn in s.conns;
  }

  lemma SilenceKeepsInformed(s: Server, a: Action, c: nat, p: Path)
    requires Informed(s, c, p) && Enabled(s, a) && !SetsSilently(s, a, p)
    requires a.Ensure? || a.LoadEntry? || a.RemoveEntry? || a.Change?
    ensures Informed(Next(s, a), c, p)
  {
  }

  lemma StepKeepsInformed(s: Server, a: Action, c: nat, p: Path)
    requires Safe(s) && Informed(s, c, p) && Enabled(s, a) && !SetsSilently(s, a, p)
    ensures Informed(Next(s, a), c, p)
  {
    match a
    case Ensure(_) => SilenceKeepsInformed(s, a, c, p);
    case LoadEntry(_, _) => SilenceKeepsInformed(s, a, c, p);
    case RemoveEntry(_) => SilenceKeepsInformed(s, a, c, p);
    case Change(_, _, _) => SilenceKeepsInformed(s, a, c, p);
    case EndSubscribe => AnswerKeepsInformed(s, c, p);
    case _ =>
  }

  lemma {:induction false} RunsKeepInformed(s: Server, actions: seq<Action>, t: Server, c: nat, p: Path)
    requires Safe(s) && Informed(s, c, p) && Runs(s, actions, t) && NeverSetsSilently(s, actions, p)
    ensures Safe(t) && Informed(t, c, p)
    decreases |actions|
  {
    if actions != [] {
      StepKeepsSafe(s, actions[0]);
      StepKeepsInformed(s, actions[0], c, p);
      RunsKeepInformed(Next(s, actions[0]), actions[1..], t, c, p);
    }
  }

  /** If the store has an entry for `p`, it is what `c` knows of `p`. */
  ghost predicate Mirrors(s: Server, c: nat, p: Path)
    requires c in s.conns
  {
    var view := ViewOf(s.conns[c].sent);
    p in s.states ==> p in view && view[p] == s.states[p]
  }

  ghost predicate InFlight(s: Server, p: Path) {
    s.inflight.Some? && s.inflight.value.path == p
  }

  /**
   A repo the subscriber got in its own hello and that nobody has touched since is mirrored like any
   other: from the snapshot on, until the entry is silently set, the view of `p` is the store's except
   while an update of it is in flight.
   */
  lemma SubscribersMirrorTheirSnapshot(s: Server, snapshot: Action, actions: seq<Action>, t: Server, p: Path)
    requires Reachable(s) && Enabled(s, snapshot) && snapshot.BeginSubscribe? && p !in Stale(s)
    requires Runs(Next(s, snapshot), actions, t) && NeverSetsSilently(Next(s, snapshot), actions, p)
    requires var c := snapshot.c; c in t.subs && c in t.conns && !t.conns[c].closed && !Pending(t, c)
    ensures !InFlight(t, p) ==> Mirrors(t, snapshot.c, p)
  {
    ReachableIsSafe(s);
    StepKeepsSafe(s, snapshot);
    SnapshotInforms(s, snapshot, p);
    RunsKeepInformed(Next(s, snapshot), actions, t, snapshot.c, p);
    var k := t.conns[snapshot.c];
    assert SubOk(t, k);
    assert Agrees(t, ViewOf(k.sent), k.silent, p);
  }

  // ---------- When the mirror breaks ----------

  /** The entry a silent step puts into the store. */
  function SilentEntry(s: Server, a: Action): StoreEntry
    requires a.Ensure? || a.LoadEntry?
  {
    if a.Ensure? then StoreEntry(0, 0)
    else StoreEntry(a.data, if a.path in s.states then s.states[a.path].seqNo else 0)
  }

  /** A silent step leaves a subscriber in agreement if and only if its view happens to hold the very entry already. */
  lemma SilentStepBreaksMirror(s: Server, a: Action, c: nat)
    requires Enabled(s, a) && (a.Ensure? || a.LoadEntry?) && SetsSilently(s, a, a.path) && c in s.conns
    ensures var view := ViewOf(s.conns[c].sent);
            Mirrors(Next(s, a), c, a.path) <==> a.path in view && view[a.path] == SilentEntry(s, a)
  {
    assert Next(s, a).conns[c].sent == s.conns[c].sent;
  }

  /** In particular loading an entry that was mirrored keeps it mirrored if and only if the data is what it was. */
  lemma LoadKeepsMirror(s: Server, a: Action, c: nat)
    requires Enabled(s, a) && a.LoadEntry? && c in s.conns && a.path in s.states && Mirrors(s, c, a.path)
    ensures Mirrors(Next(s, a), c, a.path) <==> a.data == s.states[a.path].data
  {
    SilentStepBreaksMirror(s, a, c);
  }

  /**
   The other condition is needed too: a snapshot taken while an update of `p` is in flight whose entry
   was removed and made anew meanwhile is overwritten by that update, which the store no longer holds.
   */
  lemma StaleSnapshotIsOverwritten(s: Server, c: nat, p: Path)
    requires Safe(s) && p in Stale(s) && Enabled(s, BeginSubscribe(c))
    requires var k := s.conns[c]; !k.closed && |k.sent| - k.taken + 3 <= QUEUE_SIZE
    ensures var t1 := Next(s, BeginSubscribe(c));
            Enabled(t1, EndSubscribe)
            && var t2 := Next(t1, EndSubscribe);
               Enabled(t2, Notify)
               && var t := Next(t2, Notify);
                  && c in t.subs && c in t.conns && !t.conns[c].closed && t.inflight.None? && !Pending(t, c)
                  && p in t.states && !Mirrors(t, c, p)
  {
    var t1 := Next(s, BeginSubscribe(c));
    var t2 := Next(t1, EndSubscribe);
    var k := s.conns[c];
    var u := s.inflight.value;
    assert t2.conns[c].sent == k.sent + [Response] + [Hello(s.states, s.lastEvent)];
    var t := Next(t2, Notify);
    assert t.conns[c].sent == t2.conns[c].sent + [StateFrame(u.path, u.state)];
    AppendUnfolds(t2.conns[c].sent, StateFrame(u.path, u.state), 0);
  }

  lemma Then(s: Server, a: Action, rest: seq<Action>, t: Server)
    requires Enabled(s, a) && Runs(Next(s, a), rest, t)
    ensures Runs(s, [a] + rest, t)
  {
    assert ([a] + rest)[1..] == rest;
  }

  /** One idle connection, and an update of `p` in flight. */
  function UpdateInFlight(p: Path, states: map<Path, StoreEntry>, silent: set<Path>): Server {
    Server(states, 1, Some(Update(p, StoreEntry(1, 1))), 0, map[0 := Conn([], 0, false, Serving, silent)], {}, None)
  }

  lemma StaleSteps(p: Path)
    ensures var s1 := Next(InitialAt(0), Accept(0));
            Enabled(s1, Change(p, 1, false)) && Next(s1, Change(p, 1, false)) == UpdateInFlight(p, map[p := StoreEntry(1, 1)], {})
    ensures Next(UpdateInFlight(p, map[p := StoreEntry(1, 1)], {}), RemoveEntry(p)) == UpdateInFlight(p, map[], {})
    ensures Next(UpdateInFlight(p, map[], {}), Ensure(p)) == UpdateInFlight(p, map[p := StoreEntry(0, 0)], {p})
  {
    var s2 := Next(Next(InitialAt(0), Accept(0)), Change(p, 1, false));
    assert s2.conns[0].silent == {};
    assert s2.conns == UpdateInFlight(p, s2.states, {}).conns;
    var s4 := Next(UpdateInFlight(p, map[], {}), Ensure(p));
    assert s4.conns[0].silent == {p};
    assert s4.conns == UpdateInFlight(p, s4.states, {p}).conns;
  }

  /** Such a state is reached: update, remove, ensure, with the update still in flight. */
  lemma StaleIsReached(p: Path)
    ensures var s := UpdateInFlight(p, map[p := StoreEntry(0, 0)], {p});
            Reachable(s) && p in Stale(s) && Enabled(s, BeginSubscribe(0))
  {
    var t := UpdateInFlight(p, map[p := StoreEntry(0, 0)], {p});
    StaleSteps(p);
    Then(UpdateInFlight(p, map[], {}), Ensure(p), [], t);
    Then(UpdateInFlight(p, map[p := StoreEntry(1, 1)], {}), RemoveEntry(p), [Ensure(p)] + [], t);
    Then(Next(InitialAt(0), Accept(0)), Change(p, 1, false), [RemoveEntry(p)] + ([Ensure(p)] + []), t);
    Then(InitialAt(0), Accept(0), [Change(p, 1, false)] + ([RemoveEntry(p)] + ([Ensure(p)] + [])), t);
  }

  function Subscribed(states: map<Path, StoreEntry>, silent: set<Path>): Server {
    Server(states, 0, None, 0, map[0 := Conn([Response, Hello(map[], 0)], 0, false, Serving, silent)], {0}, None)
  }

  lemma SubscribingSteps(p: Path)
    ensures var s1 := Next(InitialAt(0), Accept(0));
            Enabled(s1, BeginSubscribe(0)) && Enabled(Next(s1, BeginSubscribe(0)), EndSubscribe)
            && Next(Next(s1, BeginSubscribe(0)), EndSubscribe) == Subscribed(map[], {})
    ensures Next(Subscribed(map[], {}), Ensure(p)) == Subscribed(map[p := StoreEntry(0, 0)], {p})
  {
    var s1 := Next(InitialAt(0), Accept(0));
    var s2 := Next(s1, BeginSubscribe(0));
    var s3 := Next(s2, EndSubscribe);
    assert s3.conns[0].sent == [Response] + [Hello(map[], 0)] == [Response, Hello(map[], 0)];
    assert s3.conns == Subscribed(map[], {}).conns && s3.subs == {0};
    var s4 := Next(Subscribed(map[], {}), Ensure(p));
    assert s4.conns[0].silent == {p};
    assert s4.conns == Subscribed(s4.states, {p}).conns;
  }

  /** Without the update the view can miss an entry: Ensure tells no subscriber. */
  lemma EnsuredEntryIsNotAnnounced(p: Path)
    ensures var t := Subscribed(map[p := StoreEntry(0, 0)], {p});
            && Reachable(t) && 0 in t.subs && !t.conns[0].closed && t.inflight.None? && !Mirrors(t, 0, p)
  {
    var t := Subscribed(map[p := StoreEntry(0, 0)], {p});
    var s1 := Next(InitialAt(0), Accept(0));
    SubscribingSteps(p);
    Then(Subscribed(map[], {}), Ensure(p), [], t);
    Then(Next(s1, BeginSubscribe(0)), EndSubscribe, [Ensure(p)] + [], t);
    Then(s1, BeginSubscribe(0), [EndSubscribe] + ([Ensure(p)] + []), t);
    Then(InitialAt(0), Accept(0), [BeginSubscribe(0)] + ([EndSubscribe] + ([Ensure(p)] + [])), t);
    AppendUnfolds([Response], Hello(map[], 0), 0);
    assert [Response] + [Hello(map[], 0)] == t.conns[0].sent;
  }
}
