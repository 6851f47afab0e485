/**
 The life of watchers in the daemon. Every lock-protected region and every channel
 operation of a watcher goroutine is one atomic step; the steps of all goroutines
 interleave freely. A handle is named by its creation number, and its `done` channel by
 the same number, so a channel is closed exactly when its handle is Done.
 */
module WatcherProtocol {
  import opened Basics

  /** Waiting for the previous watcher of the path; inside the watch function; `done` closed. */
  datatype Phase = Waiting | Running | Done

  datatype Handle = Handle(path: Path, prev: Option<nat>, cancelled: bool, phase: Phase)

  /**
   `cleanups` and `forgets` are goroutines waiting for a handle's `done` channel;
   `entries` are the paths in the state store; `adding` are paths whose entry was made by
   an add command that has not started the watcher yet.
   */
  datatype State = State(
    handles: seq<Handle>,
    watchers: map<Path, nat>,
    stopping: map<Path, nat>,
    cleanups: set<nat>,
    forgets: set<nat>,
    entries: set<Path>,
    adding: set<Path>
  )

  const Initial := State([], map[], map[], {}, {}, {}, {})

  // ---------- Atomic steps ----------

  /** startWatcherLocked */
  function Start(s: State, p: Path): State {
    var prev := if p in s.stopping then Some(s.stopping[p]) else None;
    s.(handles := s.handles + [Handle(p, prev, false, Waiting)],
       watchers := s.watchers[p := |s.handles|],
       stopping := s.stopping - {p},
       entries := s.entries + {p},
       adding := s.adding - {p})
  }

  function Cancel(s: State, h: nat): State
    requires h < |s.handles|
  {
    s.(handles := s.handles[h := s.handles[h].(cancelled := true)])
  }

  /** stopWatcherLocked */
  function Stop(s: State, p: Path): State
    requires p in s.watchers && s.watchers[p] < |s.handles|
  {
    var h := s.watchers[p];
    Cancel(s, h).(watchers := s.watchers - {p}, stopping := s.stopping[p := h], cleanups := s.cleanups + {h})
  }

  /** The part of reconcileWatchers that drops one repo: stop, remove its state, spawn forgetWhenStopped. */
  function Remove(s: State, p: Path): State
    requires p in s.watchers && s.watchers[p] < |s.handles|
  {
    Stop(s, p).(entries := s.entries - {p}, adding := s.adding - {p}, forgets := s.forgets + {s.watchers[p]})
  }

  function Restart(s: State, p: Path): State
    requires p in s.watchers && s.watchers[p] < |s.handles|
  {
    Start(Stop(s, p), p)
  }

  /** The clean-up goroutine of stopWatcherLocked, once the handle is done. */
  function Cleanup(s: State, h: nat): State
    requires h < |s.handles|
  {
    var p := s.handles[h].path;
    s.(cleanups := s.cleanups - {h},
       stopping := if p in s.stopping && s.stopping[p] == h then s.stopping - {p} else s.stopping)
  }

  /** The locked part of forgetWhenStopped. */
  function Forget(s: State, h: nat): State
    requires h < |s.handles|
  {
    var p := s.handles[h].path;
    s.(forgets := s.forgets - {h}, entries := if p in s.watchers then s.entries else s.entries - {p})
  }

  function SetPhase(s: State, h: nat, phase: Phase): State
    requires h < |s.handles|
  {
    s.(handles := s.handles[h := s.handles[h].(phase := phase)])
  }

  /** The goroutine gets past its wait: it runs the watch function, or closes `done` at once if cancelled. */
  function Wake(s: State, h: nat): State
    requires h < |s.handles|
  {
    SetPhase(s, h, if s.handles[h].cancelled then Done else Running)
  }

  function CancelAll(s: State): State {
    s.(handles := seq(|s.handles|, i requires 0 <= i < |s.handles| => s.handles[i].(cancelled := true)))
  }

  datatype Action =
    | AStart(path: Path)
    | ARemove(path: Path)
    | ARestart(path: Path)
    | ACleanup(h: nat)
    | AForget(h: nat)
    | AWake(h: nat)
    | AExit(h: nat)
    | AWatcherWrite(h: nat)
    | ACommandWrite(path: Path)
    | ABeginAdd(path: Path)
    | ACancelAll

  predicate PrevClosed(s: State, h: nat)
    requires h < |s.handles|
  {
    match s.handles[h].prev
    case None => true
    case Some(q) => q < |s.handles| && s.handles[q].phase == Done
  }

  predicate Enabled(s: State, a: Action) {
    match a
    case AStart(p) => p !in s.watchers
    case ARemove(p) => p in s.watchers && s.watchers[p] < |s.handles|
    case ARestart(p) => p in s.watchers && s.watchers[p] < |s.handles|
    case ACleanup(h) => h in s.cleanups && h < |s.handles| && s.handles[h].phase == Done
    case AForget(h) => h in s.forgets && h < |s.handles| && s.handles[h].phase == Done
    case AWake(h) => h < |s.handles| && s.handles[h].phase == Waiting && PrevClosed(s, h)
    case AExit(h) => h < |s.handles| && s.handles[h].phase == Running
    case AWatcherWrite(h) => h < |s.handles| && s.handles[h].phase == Running
    case ACommandWrite(p) => true
    case ABeginAdd(p) => p !in s.watchers
    case ACancelAll => true
  }

  function Next(s: State, a: Action): State
    requires Enabled(s, a)
  {
    match a
    case AStart(p) => Start(s, p)
    case ARemove(p) => Remove(s, p)
    case ARestart(p) => Restart(s, p)
    case ACleanup(h) => Cleanup(s, h)
    case AForget(h) => Forget(s, h)
    case AWake(h) => Wake(s, h)
    case AExit(h) => SetPhase(s, h, Done)
    case AWatcherWrite(h) => s.(entries := s.entries + {s.handles[h].path})
    case ACommandWrite(p) => s.(entries := s.entries + {p})
    case ABeginAdd(p) => s.(entries := s.entries + {p}, adding := s.adding + {p})
    case ACancelAll => CancelAll(s)
  }

  /** `t` is reached from `s` by taking the actions in order, each when it is enabled. */
  ghost predicate Runs(s: State, actions: seq<Action>, t: State)
    decreases |actions|
  {
    if actions == [] then s == t
    else Enabled(s, actions[0]) && Runs(Next(s, actions[0]), actions[1..], t)
  }

  lemma {:induction false} RunsConcat(s: State, a: seq<Action>, t: State, b: seq<Action>, u: State)
    requires Runs(s, a, t) && Runs(t, b, u)
    ensures Runs(s, a + b, u)
    decreases |a|
  {
    if a == [] {
      assert a + b == b;
    } else {
      assert (a + b)[1..] == a[1..] + b;
      RunsConcat(Next(s, a[0]), a[1..], t, b, u);
    }
  }

  // ---------- Properties ----------

  ghost predicate Youngest(s: State, p: Path, h: nat) {
    && h < |s.handles| && s.handles[h].path == p
    && forall j :: h < j < |s.handles| ==> s.handles[j].path != p
  }

  /** At most one watch function runs per path. */
  ghost predicate Exclusive(s: State) {
    forall i, j :: 0 <= i < j < |s.handles| && s.handles[i].path == s.handles[j].path ==>
      !(s.handles[i].phase == Running && s.handles[j].phase == Running)
  }

  /** Once a handle has got past its wait, every earlier handle of its path has finished. */
  ghost predicate FinishedInOrder(s: State) {
    forall i, j :: 0 <= i < j < |s.handles| && s.handles[i].path == s.handles[j].path ==>
      s.handles[j].phase == Waiting || s.handles[i].phase == Done
  }

  /** A store entry without a current watcher is about to be forgotten, or about to get a watcher. */
  ghost predicate NoOrphan(s: State) {
    forall p :: p in s.entries && p !in s.watchers && p !in s.adding ==> ForgetPending(s, p)
  }

  ghost predicate ForgetPending(s: State, p: Path) {
    exists y :: Youngest(s, p, y) && y in s.forgets
  }

  // ---------- The inductive invariant ----------

  /** The maps name real handles of the right path, the youngest there is, and never both name one. */
  ghost predicate MapsValid(s: State) {
    && (forall p :: p in s.watchers ==> Youngest(s, p, s.watchers[p]) && p !in s.stopping)
    && (forall p :: p in s.stopping ==> Youngest(s, p, s.stopping[p]))
    && (forall i :: 0 <= i < |s.handles| && s.handles[i].path !in s.watchers && s.handles[i].path !in s.stopping
          ==> s.handles[i].phase == Done)
  }

  ghost predicate PrevValid(s: State, i: nat)
    requires i < |s.handles|
  {
    var prev := s.handles[i].prev;
    prev.Some? ==> prev.value < i && s.handles[prev.value].path == s.handles[i].path
  }

  /** A handle waits for its immediate predecessor, or has nothing left to wait for. */
  ghost predicate ChainValid(s: State) {
    && (forall i :: 0 <= i < |s.handles| ==> PrevValid(s, i))
    && (forall i, j :: 0 <= j < i < |s.handles| && s.handles[j].path == s.handles[i].path ==>
          match s.handles[i].prev
          case None => s.handles[j].phase == Done
          case Some(q) => j <= q)
  }

  /** An unwatched path whose youngest handle is still alive has a forget waiting for that handle. */
  ghost predicate ForgetsValid(s: State) {
    forall y :: 0 <= y < |s.handles| && s.handles[y].phase != Done && Youngest(s, s.handles[y].path, y) ==>
      s.handles[y].path in s.watchers || y in s.forgets
  }

  ghost predicate Safe(s: State) {
    MapsValid(s) && ChainValid(s) && FinishedInOrder(s) && ForgetsValid(s)
  }

  lemma StartMaps(s: State, p: Path)
    requires MapsValid(s) && p !in s.watchers
    ensures MapsValid(Start(s, p)) && Youngest(Start(s, p), p, |s.handles|)
  {
    var t := Start(s, p);
    assert Youngest(t, p, |s.handles|);
    forall q, h | q != p && Youngest(s, q, h)
      ensures Youngest(t, q, h)
    {
    }
  }

  lemma StartChain(s: State, p: Path)
    requires MapsValid(s) && ChainValid(s) && FinishedInOrder(s) && p !in s.watchers
    ensures ChainValid(Start(s, p)) && FinishedInOrder(Start(s, p))
  {
    var t := Start(s, p);
    var n := |s.handles|;
    StartPrevs(s, p);
    forall j | 0 <= j < n && s.handles[j].path == p
      ensures match t.handles[n].prev
              case None => t.handles[j].phase == Done
              case Some(q) => j <= q
    {
      if p in s.stopping {
        assert Youngest(s, p, s.stopping[p]);
      }
    }
  }

  lemma StartPrevs(s: State, p: Path)
    requires MapsValid(s) && ChainValid(s)
    ensures forall i :: 0 <= i < |Start(s, p).handles| ==> PrevValid(Start(s, p), i)
  {
    var t := Start(s, p);
    forall i | 0 <= i < |t.handles|
      ensures PrevValid(t, i)
    {
      if i < |s.handles| {
        assert PrevValid(s, i);
      } else if p in s.stopping {
        assert Youngest(s, p, s.stopping[p]);
      }
    }
  }

  lemma StartForgets(s: State, p: Path)
    requires ForgetsValid(s)
    ensures ForgetsValid(Start(s, p))
  {
    var t := Start(s, p);
    forall y | 0 <= y < |t.handles| && t.handles[y].phase != Done && Youngest(t, t.handles[y].path, y)
      ensures t.handles[y].path in t.watchers || y in t.forgets
    {
      if y < |s.handles| {
        assert forall j :: y < j < |s.handles| ==> s.handles[j] == t.handles[j];
        assert Youngest(s, s.handles[y].path, y);
      }
    }
  }

  /** Handles keep their path and predecessor, and a finished handle stays finished. */
  ghost predicate Advances(s: State, t: State) {
    && |s.handles| == |t.handles|
    && forall i :: 0 <= i < |s.handles| ==>
         && s.handles[i].path == t.handles[i].path && s.handles[i].prev == t.handles[i].prev
         && (s.handles[i].phase == Done ==> t.handles[i].phase == Done)
  }

  lemma AdvanceYoungest(s: State, t: State)
    requires Advances(s, t)
    ensures forall p, h :: Youngest(s, p, h) <==> Youngest(t, p, h)
  {
    forall p, h
      ensures Youngest(s, p, h) <==> Youngest(t, p, h)
    {
    }
  }

  lemma AdvanceChain(s: State, t: State)
    requires Advances(s, t) && ChainValid(s)
    ensures ChainValid(t)
  {
    forall i | 0 <= i < |t.handles|
      ensures PrevValid(t, i)
    {
      assert PrevValid(s, i);
    }
  }

  lemma AdvanceMaps(s: State, t: State)
    requires Advances(s, t) && MapsValid(s) && t.watchers == s.watchers && t.stopping == s.stopping
    ensures MapsValid(t)
  {
    AdvanceYoungest(s, t);
  }

  lemma AdvanceForgets(s: State, t: State)
    requires Advances(s, t) && ForgetsValid(s) && t.watchers == s.watchers && s.forgets <= t.forgets
    ensures ForgetsValid(t)
  {
    AdvanceYoungest(s, t);
  }

  lemma StopMaps(s: State, p: Path)
    requires MapsValid(s) && p in s.watchers
    ensures MapsValid(Stop(s, p)) && Advances(s, Stop(s, p)) && Youngest(Stop(s, p), p, s.watchers[p])
  {
    AdvanceYoungest(s, Stop(s, p));
  }

  lemma RemoveForgets(s: State, p: Path)
    requires MapsValid(s) && ForgetsValid(s) && p in s.watchers
    ensures ForgetsValid(Remove(s, p))
  {
    var t := Remove(s, p);
    AdvanceYoungest(s, t);
    forall y | 0 <= y < |t.handles| && t.handles[y].phase != Done && Youngest(t, t.handles[y].path, y)
      ensures t.handles[y].path in t.watchers || y in t.forgets
    {
      assert Youngest(s, s.handles[y].path, y);
    }
  }

  lemma RemoveKeepsSafe(s: State, p: Path)
    requires Safe(s) && p in s.watchers
    ensures Safe(Remove(s, p))
  {
    var t := Remove(s, p);
    StopMaps(s, p);
    AdvanceMaps(Stop(s, p), t);
    AdvanceChain(s, t);
    RemoveForgets(s, p);
  }

  lemma RestartForgets(s: State, p: Path)
    requires ForgetsValid(s) && p in s.watchers && s.watchers[p] < |s.handles|
    ensures ForgetsValid(Restart(s, p))
  {
    var t := Restart(s, p);
    forall y | 0 <= y < |t.handles| && t.handles[y].phase != Done && Youngest(t, t.handles[y].path, y)
      ensures t.handles[y].path in t.watchers || y in t.forgets
    {
      if y < |s.handles| && s.handles[y].path != p {
        assert forall j :: y < j < |s.handles| ==> s.handles[j].path == t.handles[j].path;
        assert Youngest(s, s.handles[y].path, y);
      }
    }
  }

  lemma RestartKeepsSafe(s: State, p: Path)
    requires Safe(s) && p in s.watchers
    ensures Safe(Restart(s, p))
  {
    StopMaps(s, p);
    AdvanceChain(s, Stop(s, p));
    StartMaps(Stop(s, p), p);
    StartChain(Stop(s, p), p);
    RestartForgets(s, p);
  }

  lemma CleanupKeepsSafe(s: State, h: nat)
    requires Safe(s) && Enabled(s, ACleanup(h))
    ensures Safe(Cleanup(s, h))
  {
    var t := Cleanup(s, h);
    var p := s.handles[h].path;
    AdvanceChain(s, t);
    AdvanceForgets(s, t);
    AdvanceYoungest(s, t);
    if p in s.stopping && s.stopping[p] == h {
      forall i | 0 <= i < |t.handles| && t.handles[i].path == p
        ensures t.handles[i].phase == Done
      {
        assert Youngest(s, p, h);
      }
    }
  }

  lemma ForgetKeepsSafe(s: State, h: nat)
    requires Safe(s) && Enabled(s, AForget(h))
    ensures Safe(Forget(s, h))
  {
    var t := Forget(s, h);
    AdvanceMaps(s, t);
    AdvanceChain(s, t);
    AdvanceYoungest(s, t);
  }

  lemma EarlierAreDone(s: State, h: nat)
    requires ChainValid(s) && h < |s.handles| && PrevClosed(s, h) && FinishedInOrder(s)
    ensures forall i :: 0 <= i < h && s.handles[i].path == s.handles[h].path ==> s.handles[i].phase == Done
  {
    assert PrevValid(s, h);
    forall i | 0 <= i < h && s.handles[i].path == s.handles[h].path
      ensures s.handles[i].phase == Done
    {
      if s.handles[h].prev.Some? && i < s.handles[h].prev.value {
        assert s.handles[s.handles[h].prev.value].phase == Done;
      }
    }
  }

  lemma PhaseKeepsSafe(s: State, h: nat, phase: Phase)
    requires Safe(s) && h < |s.handles| && s.handles[h].phase != Done && phase != Waiting
    requires forall i :: 0 <= i < h && s.handles[i].path == s.handles[h].path ==> s.handles[i].phase == Done
    ensures Safe(SetPhase(s, h, phase))
  {
    var t := SetPhase(s, h, phase);
    AdvanceMaps(s, t);
    AdvanceChain(s, t);
    AdvanceForgets(s, t);
  }

  lemma OnlyAdvancing(s: State, t: State)
    requires Safe(s) && Advances(s, t) && Advances(t, s)
    requires forall i :: 0 <= i < |s.handles| ==> s.handles[i].phase == t.handles[i].phase
    requires t.watchers == s.watchers && t.stopping == s.stopping && t.forgets == s.forgets
    ensures Safe(t)
  {
    AdvanceMaps(s, t);
    AdvanceChain(s, t);
    AdvanceForgets(s, t);
  }

  lemma StepKeepsSafe(s: State, a: Action)
    requires Safe(s) && Enabled(s, a)
    ensures Safe(Next(s, a))
  {
    match a {
      case AStart(p) =>
        StartMaps(s, p);
        StartChain(s, p);
        StartForgets(s, p);
      case ARemove(p) => RemoveKeepsSafe(s, p);
      case ARestart(p) => RestartKeepsSafe(s, p);
      case ACleanup(h) => CleanupKeepsSafe(s, h);
      case AForget(h) => ForgetKeepsSafe(s, h);
      case AWake(h) =>
        EarlierAreDone(s, h);
        PhaseKeepsSafe(s, h, if s.handles[h].cancelled then Done else Running);
      case AExit(h) => PhaseKeepsSafe(s, h, Done);
      case AWatcherWrite(_) => OnlyAdvancing(s, Next(s, a));
      case ACommandWrite(_) => OnlyAdvancing(s, Next(s, a));
      case ABeginAdd(_) => OnlyAdvancing(s, Next(s, a));
      case ACancelAll => OnlyAdvancing(s, Next(s, a));
    }
  }

  // ---------- Main results on exclusivity ----------

  lemma {:induction false} RunsKeepSafe(s: State, actions: seq<Action>, t: State)
    requires Safe(s) && Runs(s, actions, t)
    ensures Safe(t)
    decreases |actions|
  {
    if actions != [] {
      StepKeepsSafe(s, actions[0]);
      RunsKeepSafe(Next(s, actions[0]), actions[1..], t);
    }
  }

  /** In every interleaving at most one watcher body runs per path, and `done` channels close in creation order. */
  lemma WatchersAreExclusive(actions: seq<Action>, t: State)
    requires Runs(Initial, actions, t)
    ensures Exclusive(t) && FinishedInOrder(t)
  {
    RunsKeepSafe(Initial, actions, t);
  }

  /** The chain of waits cannot deadlock: the oldest unfinished handle of a path can always take a step. */
  lemma WaitsNeverDeadlock(actions: seq<Action>, t: State, h: nat)
    requires Runs(Initial, actions, t)
    requires h < |t.handles| && t.handles[h].phase != Done
    requires forall i :: 0 <= i < h && t.handles[i].path == t.handles[h].path ==> t.handles[i].phase == Done
    ensures Enabled(t, AWake(h)) || Enabled(t, AExit(h))
  {
    RunsKeepSafe(Initial, actions, t);
    assert PrevValid(t, h);
  }

  // ---------- Only current watchers run ----------

  /** This step takes handle `h` into its watch function. */
  predicate Begins(s: State, a: Action, h: nat)
    requires Enabled(s, a)
  {
    && h < |s.handles| && s.handles[h].phase != Running
    && h < |Next(s, a).handles| && Next(s, a).handles[h].phase == Running
  }

  /** The handle is its path's entry in the map of watchers. */
  predicate IsCurrent(s: State, h: nat) {
    h < |s.handles| && s.handles[h].path in s.watchers && s.watchers[s.handles[h].path] == h
  }

  /** An unfinished handle that nobody watches with any more is cancelled. */
  ghost predicate OthersCancelled(s: State) {
    forall h :: 0 <= h < |s.handles| && s.handles[h].phase != Done && !IsCurrent(s, h) ==> s.handles[h].cancelled
  }

  ghost predicate WatchersExist(s: State) {
    forall p :: p in s.watchers ==> s.watchers[p] < |s.handles| && s.handles[s.watchers[p]].path == p
  }

  lemma StepKeepsOthersCancelled(s: State, a: Action)
    requires OthersCancelled(s) && WatchersExist(s) && Enabled(s, a)
    ensures OthersCancelled(Next(s, a)) && WatchersExist(Next(s, a))
  {
    var t := Next(s, a);
    forall h | 0 <= h < |t.handles| && t.handles[h].phase != Done && !IsCurrent(t, h)
      ensures t.handles[h].cancelled
    {
      if h < |s.handles| {
        assert s.handles[h].phase != Done && s.handles[h].path == t.handles[h].path;
        assert !IsCurrent(s, h) ==> s.handles[h].cancelled;
      }
    }
  }

  lemma {:induction false} RunsKeepOthersCancelled(s: State, actions: seq<Action>, t: State)
    requires OthersCancelled(s) && WatchersExist(s) && Runs(s, actions, t)
    ensures OthersCancelled(t) && WatchersExist(t)
    decreases |actions|
  {
    if actions != [] {
      StepKeepsOthersCancelled(s, actions[0]);
      RunsKeepOthersCancelled(Next(s, actions[0]), actions[1..], t);
    }
  }

  /** In every run a watch function begins only for the watcher the daemon holds for the path: a stopped one never starts. */
  lemma OnlyCurrentBegins(actions: seq<Action>, s: State, a: Action, h: nat)
    requires Runs(Initial, actions, s) && Enabled(s, a) && Begins(s, a, h)
    ensures IsCurrent(s, h)
  {
    RunsKeepOthersCancelled(Initial, actions, s);
  }

  lemma {:induction false} CancelledStays(s: State, actions: seq<Action>, t: State, h: nat)
    requires Runs(s, actions, t) && h < |s.handles| && s.handles[h].cancelled && s.handles[h].phase != Running
    ensures h < |t.handles| && t.handles[h].cancelled && t.handles[h].phase != Running
    decreases |actions|
  {
    if actions != [] {
      CancelledStays(Next(s, actions[0]), actions[1..], t, h);
    }
  }

  /** After the daemon has cancelled everything, no handle that existed then begins any more. */
  lemma NothingBeginsAfterCancelAll(s: State, actions: seq<Action>, t: State, a: Action, h: nat)
    requires Runs(Next(s, ACancelAll), actions, t) && h < |s.handles| && s.handles[h].phase != Running && Enabled(t, a)
    ensures !Begins(t, a, h)
  {
    CancelledStays(Next(s, ACancelAll), actions, t, h);
  }

  /** As long as nobody cancels everything, the current watcher of a path is not cancelled. */
  ghost predicate CurrentUncancelled(s: State) {
    forall p :: p in s.watchers && s.watchers[p] < |s.handles| ==> !s.handles[s.watchers[p]].cancelled
  }

  lemma {:induction false} RunsKeepCurrentUncancelled(s: State, actions: seq<Action>, t: State)
    requires CurrentUncancelled(s) && WatchersExist(s) && OthersCancelled(s)
    requires Runs(s, actions, t) && ACancelAll !in actions
    ensures CurrentUncancelled(t)
    decreases |actions|
  {
    if actions != [] {
      var a := actions[0];
      StepKeepsOthersCancelled(s, a);
      StepKeepsCurrentUncancelled(s, a);
      RunsKeepCurrentUncancelled(Next(s, a), actions[1..], t);
    }
  }

  lemma StepKeepsCurrentUncancelled(s: State, a: Action)
    requires CurrentUncancelled(s) && WatchersExist(s) && Enabled(s, a) && a != ACancelAll
    ensures CurrentUncancelled(Next(s, a))
  {
    var t := Next(s, a);
    forall p | p in t.watchers && t.watchers[p] < |t.handles|
      ensures !t.handles[t.watchers[p]].cancelled
    {
      if p in s.watchers && s.watchers[p] == t.watchers[p] {
        assert s.handles[s.watchers[p]].path == p;
      }
    }
  }

  /** And once its turn has come it does begin. */
  lemma CurrentBegins(actions: seq<Action>, s: State, h: nat)
    requires Runs(Initial, actions, s) && ACancelAll !in actions && IsCurrent(s, h) && Enabled(s, AWake(h))
    ensures Begins(s, AWake(h), h)
  {
    RunsKeepCurrentUncancelled(Initial, actions, s);
  }

  /** A watched path always has an entry in the store. */
  ghost predicate WatchedIsStored(s: State) {
    forall p :: p in s.watchers ==> p in s.entries
  }

  lemma {:induction false} WatchedStaysStored(s: State, actions: seq<Action>, t: State)
    requires WatchedIsStored(s) && Runs(s, actions, t)
    ensures WatchedIsStored(t)
    decreases |actions|
  {
    if actions != [] {
      WatchedStaysStored(Next(s, actions[0]), actions[1..], t);
    }
  }

  // ---------- Exclusivity per folder ----------

  /** At most one watch function runs per folder, where `resolve` tells the folder a path names. */
  ghost predicate FolderExclusive(resolve: Path -> Path, s: State) {
    forall i, j :: 0 <= i < j < |s.handles| && resolve(s.handles[i].path) == resolve(s.handles[j].path) ==>
      !(s.handles[i].phase == Running && s.handles[j].phase == Running)
  }

  /** The unfinished handles of a folder all carry one name. */
  ghost predicate OneName(resolve: Path -> Path, s: State) {
    forall i :: 0 <= i < |s.handles| && s.handles[i].phase != Done ==> NoOtherName(resolve, s, s.handles[i].path)
  }

  /** No handle of p's folder under another name is unfinished. */
  ghost predicate NoOtherName(resolve: Path -> Path, s: State, p: Path) {
    forall j :: 0 <= j < |s.handles| && s.handles[j].phase != Done && resolve(s.handles[j].path) == resolve(p) ==>
      s.handles[j].path == p
  }

  lemma OneNameExcludes(resolve: Path -> Path, s: State)
    requires Safe(s) && OneName(resolve, s)
    ensures FolderExclusive(resolve, s)
  {
    forall i, j | 0 <= i < j < |s.handles| && resolve(s.handles[i].path) == resolve(s.handles[j].path)
      ensures !(s.handles[i].phase == Running && s.handles[j].phase == Running)
    {
      assert s.handles[i].phase != Done ==> NoOtherName(resolve, s, s.handles[i].path);
    }
  }

  /** Only a step that makes a handle can bring in a second name; it must find the folder free of other names. */
  ghost predicate FindsFolderFree(resolve: Path -> Path, s: State, a: Action) {
    a.AStart? || a.ARestart? ==> NoOtherName(resolve, s, a.path)
  }

  /** A step that makes no handle and wakes none up from Done keeps the names there are. */
  lemma AdvanceKeepsOneName(resolve: Path -> Path, s: State, t: State)
    requires Advances(s, t) && OneName(resolve, s)
    ensures OneName(resolve, t)
  {
    forall i | 0 <= i < |t.handles| && t.handles[i].phase != Done
      ensures NoOtherName(resolve, t, t.handles[i].path)
    {
      assert NoOtherName(resolve, s, s.handles[i].path);
    }
  }

  /** A new handle keeps one name per folder if and only if the folder is free of other names. */
  lemma StartKeepsOneName(resolve: Path -> Path, s: State, p: Path)
    requires OneName(resolve, s)
    ensures OneName(resolve, Start(s, p)) <==> NoOtherName(resolve, s, p)
  {
    var t := Start(s, p);
    var n := |s.handles|;
    if NoOtherName(resolve, s, p) {
      forall i | 0 <= i <= n && t.handles[i].phase != Done
        ensures NoOtherName(resolve, t, t.handles[i].path)
      {
        if i < n {
          assert NoOtherName(resolve, s, s.handles[i].path);
        }
      }
    }
    if OneName(resolve, t) {
      assert NoOtherName(resolve, t, t.handles[n].path);
      forall j | 0 <= j < n && s.handles[j].phase != Done && resolve(s.handles[j].path) == resolve(p)
        ensures s.handles[j].path == p
      {
        assert t.handles[j] == s.handles[j];
      }
    }
  }

  /** For every step: one name per folder survives exactly when a started or restarted path finds its folder free. */
  lemma StepKeepsOneName(resolve: Path -> Path, s: State, a: Action)
    requires OneName(resolve, s) && Enabled(s, a)
    ensures OneName(resolve, Next(s, a)) <==> FindsFolderFree(resolve, s, a)
  {
    match a {
      case AStart(p) => StartKeepsOneName(resolve, s, p);
      case ARestart(p) =>
        AdvanceKeepsOneName(resolve, s, Stop(s, p));
        StartKeepsOneName(resolve, Stop(s, p), p);
        SameOtherNames(resolve, s, Stop(s, p), p);
      case _ => AdvanceKeepsOneName(resolve, s, Next(s, a));
    }
  }

  lemma SameOtherNames(resolve: Path -> Path, s: State, t: State, p: Path)
    requires Advances(s, t) && forall i :: 0 <= i < |s.handles| ==> s.handles[i].phase == t.handles[i].phase
    ensures NoOtherName(resolve, s, p) <==> NoOtherName(resolve, t, p)
  {
  }

  ghost predicate RunsFolderFree(resolve: Path -> Path, s: State, actions: seq<Action>, t: State)
    decreases |actions|
  {
    if actions == [] then s == t
    else && Enabled(s, actions[0]) && FindsFolderFree(resolve, s, actions[0])
         && RunsFolderFree(resolve, Next(s, actions[0]), actions[1..], t)
  }

  lemma {:induction false} RunsKeepOneName(resolve: Path -> Path, s: State, actions: seq<Action>, t: State)
    requires Safe(s) && OneName(resolve, s) && RunsFolderFree(resolve, s, actions, t)
    ensures Safe(t) && OneName(resolve, t)
    decreases |actions|
  {
    if actions != [] {
      StepKeepsSafe(s, actions[0]);
      StepKeepsOneName(resolve, s, actions[0]);
      RunsKeepOneName(resolve, Next(s, actions[0]), actions[1..], t);
    }
  }

  /** If every start and restart finds its folder free of other names, one watch function runs per folder. */
  lemma FoldersAreExclusive(resolve: Path -> Path, actions: seq<Action>, t: State)
    requires RunsFolderFree(resolve, Initial, actions, t)
    ensures FolderExclusive(resolve, t)
  {
    RunsKeepOneName(resolve, Initial, actions, t);
    OneNameExcludes(resolve, t);
  }

  function OneHandle(p: Path, phase: Phase): State {
    Initial.(handles := [Handle(p, None, false, phase)], watchers := map[p := 0], entries := {p})
  }

  function Removed(p: Path, phase: Phase, forgets: set<nat>): State {
    State([Handle(p, None, true, phase)], map[], map[p := 0], {0}, forgets, {}, {})
  }

  lemma StartedFirst(p: Path)
    ensures Enabled(Initial, AStart(p)) && Next(Initial, AStart(p)) == OneHandle(p, Waiting)
  {
  }

  lemma WokenFirst(p: Path)
    ensures Enabled(OneHandle(p, Waiting), AWake(0)) && Next(OneHandle(p, Waiting), AWake(0)) == OneHandle(p, Running)
  {
  }

  lemma RemovedFirst(p: Path)
    ensures Enabled(OneHandle(p, Running), ARemove(p)) && Next(OneHandle(p, Running), ARemove(p)) == Removed(p, Running, {0})
  {
  }

  /** A running watcher can always have been removed. */
  lemma RemovedIsReached(p: Path, rest: seq<Action>, t: State)
    requires Runs(Removed(p, Running, {0}), rest, t)
    ensures Runs(Initial, [AStart(p)] + ([AWake(0)] + ([ARemove(p)] + rest)), t)
  {
    StartedFirst(p);
    WokenFirst(p);
    RemovedFirst(p);
    OneStep(OneHandle(p, Running), ARemove(p), Removed(p, Running, {0}), rest, t);
    OneStep(OneHandle(p, Waiting), AWake(0), OneHandle(p, Running), [ARemove(p)] + rest, t);
    OneStep(Initial, AStart(p), OneHandle(p, Waiting), [AWake(0)] + ([ARemove(p)] + rest), t);
  }

  function Beside(p: Path, q: Path, phase: Phase): State {
    State([Handle(p, None, true, Running), Handle(q, None, false, phase)], map[q := 1], map[p := 0], {0}, {0}, {q}, {})
  }

  lemma StartedBeside(p: Path, q: Path)
    requires p != q
    ensures Enabled(Removed(p, Running, {0}), AStart(q))
    ensures Next(Removed(p, Running, {0}), AStart(q)) == Beside(p, q, Waiting)
    ensures Enabled(Beside(p, q, Waiting), AWake(1)) && Next(Beside(p, q, Waiting), AWake(1)) == Beside(p, q, Running)
  {
  }

  /** The condition is needed: a folder removed under one name and added under another has two watch functions running. */
  lemma AliasesMayOverlap(resolve: Path -> Path, p: Path, q: Path)
    requires p != q && resolve(p) == resolve(q)
    ensures exists actions, t :: Runs(Initial, actions, t) && !FolderExclusive(resolve, t)
  {
    var t := Beside(p, q, Running);
    StartedBeside(p, q);
    OneStep(Beside(p, q, Waiting), AWake(1), t, [], t);
    OneStep(Removed(p, Running, {0}), AStart(q), Beside(p, q, Waiting), [AWake(1)] + [], t);
    RemovedIsReached(p, [AStart(q)] + ([AWake(1)] + []), t);
    assert t.handles[0].phase == Running && t.handles[1].phase == Running;
  }

  // ---------- Main results on forgetting ----------

  lemma {:induction false} YoungestFrom(s: State, p: Path, h: nat) returns (y: nat)
    requires h < |s.handles| && s.handles[h].path == p
    ensures h <= y && Youngest(s, p, y)
    decreases |s.handles| - h
  {
    if forall j :: h < j < |s.handles| ==> s.handles[j].path != p {
      y := h;
    } else {
      var j :| h < j < |s.handles| && s.handles[j].path == p;
      y := YoungestFrom(s, p, j);
    }
  }

  /** A watcher that is still running never writes into the void: its path is watched or will be forgotten. */
  lemma RunningIsCovered(s: State, h: nat)
    requires Safe(s) && h < |s.handles| && s.handles[h].phase != Done
    ensures s.handles[h].path in s.watchers || ForgetPending(s, s.handles[h].path)
  {
    var p := s.handles[h].path;
    if p !in s.watchers {
      var y := YoungestFrom(s, p, h);
      assert h < y ==> s.handles[y].phase == Waiting;
      assert y in s.forgets;
    }
  }

  lemma OtherForgetsStay(s: State, t: State, p: Path)
    requires ForgetPending(s, p)
    requires |s.handles| <= |t.handles|
    requires forall i :: 0 <= i < |s.handles| ==> s.handles[i].path == t.handles[i].path
    requires forall i :: |s.handles| <= i < |t.handles| ==> t.handles[i].path != p
    requires forall y :: y in s.forgets && y < |s.handles| && s.handles[y].path == p ==> y in t.forgets
    ensures ForgetPending(t, p)
  {
    var y :| Youngest(s, p, y) && y in s.forgets;
    assert Youngest(t, p, y);
  }

  /** A command may only write the state of a path that is watched, known, or already due to be forgotten. */
  ghost predicate Considerate(s: State, a: Action) {
    a.ACommandWrite? ==>
      a.path in s.watchers || a.path in s.adding || a.path in s.entries || ForgetPending(s, a.path)
  }

  lemma StepKeepsNoOrphan(s: State, a: Action)
    requires Safe(s) && NoOrphan(s) && Enabled(s, a) && !a.ACommandWrite?
    ensures NoOrphan(Next(s, a))
  {
    var t := Next(s, a);
    forall p | p in t.entries && p !in t.watchers && p !in t.adding
      ensures ForgetPending(t, p)
    {
      if a.AWatcherWrite? && s.handles[a.h].path == p {
        RunningIsCovered(s, a.h);
      }
      assert p in s.entries || a.AWatcherWrite?;
      assert p !in s.watchers && p !in s.adding;
      assert ForgetPending(s, p);
      OtherForgetsStay(s, t, p);
    }
  }

  /** For a write by a command the guarantee survives exactly when the command was considerate. */
  lemma CommandWriteKeepsNoOrphan(s: State, p: Path)
    requires NoOrphan(s)
    ensures NoOrphan(Next(s, ACommandWrite(p))) <==> Considerate(s, ACommandWrite(p))
  {
    var t := Next(s, ACommandWrite(p));
    AdvanceYoungest(s, t);
    assert forall q :: ForgetPending(s, q) <==> ForgetPending(t, q) by {
      forall q
        ensures ForgetPending(s, q) <==> ForgetPending(t, q)
      {
        if ForgetPending(s, q) {
          var y :| Youngest(s, q, y) && y in s.forgets;
          assert Youngest(t, q, y);
        }
        if ForgetPending(t, q) {
          var y :| Youngest(t, q, y) && y in t.forgets;
          assert Youngest(s, q, y);
        }
      }
    }
    if NoOrphan(t) {
      assert p in t.entries;
    }
  }

  ghost predicate RunsConsiderately(s: State, actions: seq<Action>, t: State)
    decreases |actions|
  {
    if actions == [] then s == t
    else && Enabled(s, actions[0]) && Considerate(s, actions[0])
         && RunsConsiderately(Next(s, actions[0]), actions[1..], t)
  }

  lemma {:induction false} RunsKeepNoOrphan(s: State, actions: seq<Action>, t: State)
    requires Safe(s) && NoOrphan(s) && RunsConsiderately(s, actions, t)
    ensures Safe(t) && NoOrphan(t)
    decreases |actions|
  {
    if actions != [] {
      var a := actions[0];
      StepKeepsSafe(s, a);
      if a.ACommandWrite? {
        CommandWriteKeepsNoOrphan(s, a.path);
      } else {
        StepKeepsNoOrphan(s, a);
      }
      RunsKeepNoOrphan(Next(s, a), actions[1..], t);
    }
  }

  /** A removed repo's state never outlives its watchers, through any removals, re-adds and late watcher writes. */
  lemma RemovedStateIsForgotten(actions: seq<Action>, t: State)
    requires RunsConsiderately(Initial, actions, t)
    ensures NoOrphan(t)
  {
    RunsKeepNoOrphan(Initial, actions, t);
  }

  lemma OneStep(s: State, a: Action, t: State, rest: seq<Action>, u: State)
    requires Enabled(s, a) && Next(s, a) == t && Runs(t, rest, u)
    ensures Runs(s, [a] + rest, u)
  {
    assert ([a] + rest)[1..] == rest;
  }

  /** Late writes do happen: a stopped watcher brings the entry back before it exits, and the forget takes it away again. */
  lemma LateWriteIsForgotten(p: Path)
    ensures var s := Removed(p, Running, {0}).(entries := {p});
            && (exists actions :: Runs(Initial, actions, s)) && p !in s.watchers && ForgetPending(s, p)
    ensures var s := Removed(p, Running, {0}).(entries := {p});
            && Enabled(s, AExit(0)) && Enabled(Next(s, AExit(0)), AForget(0))
            && p !in Next(Next(s, AExit(0)), AForget(0)).entries
  {
    var s := Removed(p, Running, {0}).(entries := {p});
    OneStep(Removed(p, Running, {0}), AWatcherWrite(0), s, [], s);
    RemovedIsReached(p, [AWatcherWrite(0)] + [], s);
    assert Youngest(s, p, 0);
  }

  lemma ForgottenThenWritten(p: Path)
    ensures Enabled(Removed(p, Running, {0}), AExit(0))
    ensures Next(Removed(p, Running, {0}), AExit(0)) == Removed(p, Done, {0})
    ensures Enabled(Removed(p, Done, {0}), AForget(0)) && Next(Removed(p, Done, {0}), AForget(0)) == Removed(p, Done, {})
  {
  }

  /** A command that looked the watcher up before the removal and writes after the forget leaves an entry for good. */
  lemma LateCommandOrphansState(p: Path)
    ensures exists actions, t :: Runs(Initial, actions, t) && !NoOrphan(t) && t.forgets == {}
  {
    var s := Removed(p, Done, {});
    var t := s.(entries := {p});
    ForgottenThenWritten(p);
    OneStep(s, ACommandWrite(p), t, [], t);
    OneStep(Removed(p, Done, {0}), AForget(0), s, [ACommandWrite(p)] + [], t);
    OneStep(Removed(p, Running, {0}), AExit(0), Removed(p, Done, {0}), [AForget(0)] + ([ACommandWrite(p)] + []), t);
    RemovedIsReached(p, [AExit(0)] + ([AForget(0)] + ([ACommandWrite(p)] + [])), t);
    assert p in t.entries && !ForgetPending(t, p);
  }
}
