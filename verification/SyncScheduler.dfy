/**
 The scheduler that decides when a watched repo is synced. The scheduler is one goroutine;
 file watcher, commands, clock, folder and cancellation act at any moment between its reads
 of shared state. `Interfere` stands at each of those moments and takes any number of
 environment steps, recording every state it passes through.
 */
module SyncScheduling {
  import opened Basics

  const TRIGGER_CAPACITY: nat := 100

  datatype Status = Preflight | Offline | OtherStatus

  /**
   What the scheduler shares with the rest of the daemon. `kicks` counts resume commands that
   have cleared `paused` but not yet sent their kick; `unsynced` records that a file event
   arrived since the last sync attempt began.
   */
  datatype Env = Env(
    now: nat, trigger: nat, immediate: bool, force: bool, paused: bool, kicks: nat,
    present: bool, cancelled: bool, status: Status, unsynced: bool
  )

  datatype EnvStep =
    | Tick(elapsed: nat)
    | FileEvent
    | Pause
    | Resume
    | DeliverKick
    | AskForce
    | Nudge
    | FolderGone
    | FolderBack
    | CancelWatcher
    | WriteStatus(status: Status)

  function Apply(e: Env, step: EnvStep): Env {
    match step
    case Tick(elapsed) => e.(now := e.now + elapsed)
    case FileEvent => e.(unsynced := true, trigger := if e.trigger < TRIGGER_CAPACITY then e.trigger + 1 else e.trigger)
    case Pause => e.(paused := true)
    case Resume => if e.paused then e.(paused := false, kicks := e.kicks + 1) else e
    case DeliverKick => if e.kicks > 0 then e.(kicks := e.kicks - 1, immediate := true) else e
    case AskForce => e.(force := true)
    case Nudge => e.(immediate := true)
    case FolderGone => e.(present := false)
    case FolderBack => e.(present := true)
    case CancelWatcher => e.(cancelled := true)
    case WriteStatus(st) => e.(status := st)
  }

  function ApplyAll(e: Env, steps: seq<EnvStep>): Env
    decreases |steps|
  {
    if steps == [] then e else ApplyAll(Apply(e, steps[0]), steps[1..])
  }

  /** What the scheduler may rely on across any interference. */
  ghost predicate Rely(e: Env, f: Env) {
    && e.now <= f.now
    && (e.cancelled ==> f.cancelled)
    && e.trigger <= f.trigger
    && (e.immediate ==> f.immediate)
    && (e.force ==> f.force)
    && (e.kicks > 0 ==> f.kicks > 0 || f.immediate)
    && (e.paused ==> f.paused || f.kicks > 0 || f.immediate)
    && (f.unsynced ==> e.unsynced || f.trigger > 0)
  }

  lemma OneStepIsRely(e: Env, step: EnvStep)
    ensures Rely(e, Apply(e, step))
  {
    match step
    case Tick(_) =>
    case FileEvent =>
    case Resume =>
    case DeliverKick =>
    case _ =>
  }

  lemma {:induction false} AnyInterferenceIsRely(e: Env, steps: seq<EnvStep>)
    ensures Rely(e, ApplyAll(e, steps))
    decreases |steps|
  {
    if steps != [] {
      OneStepIsRely(e, steps[0]);
      AnyInterferenceIsRely(Apply(e, steps[0]), steps[1..]);
    }
  }

  // ---------- No file event is lost ----------

  /** `busy`: the scheduler has taken a wake-up and has not yet begun a sync, seen a pause or seen the folder missing. */
  datatype View = View(env: Env, fsArmed: bool, retryArmed: bool, missing: bool, busy: bool)

  ghost predicate NoEventLost(v: View) {
    v.env.unsynced ==>
      || v.fsArmed || v.retryArmed || v.missing || v.busy
      || v.env.trigger > 0 || v.env.paused || v.env.kicks > 0 || v.env.immediate || v.env.cancelled
  }

  ghost predicate SafeAt(trace: seq<View>, i: nat) {
    i < |trace| ==> NoEventLost(trace[i])
  }

  ghost predicate NeverLost(trace: seq<View>) {
    forall i :: SafeAt(trace, i)
  }

  lemma NeverLostMeans(trace: seq<View>)
    requires NeverLost(trace)
    ensures forall i :: 0 <= i < |trace| ==> NoEventLost(trace[i])
  {
    forall i | 0 <= i < |trace|
      ensures NoEventLost(trace[i])
    {
      assert SafeAt(trace, i);
    }
  }

  lemma NeverLostAppend(trace: seq<View>, v: View)
    requires NeverLost(trace) && NoEventLost(v)
    ensures NeverLost(trace + [v])
  {
    forall i: nat
      ensures SafeAt(trace + [v], i)
    {
      assert SafeAt(trace, i);
    }
  }

  lemma NeverLostConcat(a: seq<View>, b: seq<View>)
    requires NeverLost(a) && NeverLost(b)
    ensures NeverLost(a + b)
  {
    forall i: nat
      ensures SafeAt(a + b, i)
    {
      assert SafeAt(a, i);
      if i >= |a| {
        assert SafeAt(b, i - |a|);
      }
    }
  }

  lemma InterferenceLosesNothing(v: View, steps: seq<EnvStep>)
    requires NoEventLost(v)
    ensures NoEventLost(v.(env := ApplyAll(v.env, steps)))
  {
    AnyInterferenceIsRely(v.env, steps);
  }

  // ---------- Backoff ----------

  function Min(a: nat, b: nat): nat {
    if a < b then a else b
  }

  function Pow2(k: nat): nat {
    if k == 0 then 1 else 2 * Pow2(k - 1)
  }

  /** The delay after k earlier consecutive failures, as the code doubles it. */
  function Backoff(min: nat, max: nat, k: nat): nat {
    if k == 0 then min else Min(2 * Backoff(min, max, k - 1), max)
  }

  /** The doubling has a closed form: min * 2^k, capped at max. */
  lemma {:induction false} BackoffClosedForm(min: nat, max: nat, k: nat)
    requires min <= max
    ensures Backoff(min, max, k) == Min(min * Pow2(k), max)
  {
    if k > 0 {
      BackoffClosedForm(min, max, k - 1);
      MulDouble(min, Pow2(k - 1));
    }
  }

  lemma MulDouble(a: nat, b: nat)
    ensures a * (2 * b) == 2 * (a * b)
  {
  }

  datatype Kind = OfflineFailure | OtherFailure

  /** How full syncs ended; a failure with the folder gone is not an outcome. */
  datatype Outcome = Succeeded | Failed(kind: Kind, delay: nat)

  /** How many of the latest outcomes are failures of this kind. */
  function Streak(outcomes: seq<Outcome>, kind: Kind): nat {
    if outcomes == [] then 0
    else
      var last := outcomes[|outcomes| - 1];
      if last.Failed? && last.kind == kind then 1 + Streak(outcomes[..|outcomes| - 1], kind) else 0
  }

  /** The limits of the two backoffs. */
  datatype Limits = Limits(errorMin: nat, errorMax: nat, offlineMin: nat, offlineMax: nat) {
    function Delay(kind: Kind, earlier: nat): nat {
      match kind
      case OfflineFailure => Backoff(offlineMin, offlineMax, earlier)
      case OtherFailure => Backoff(errorMin, errorMax, earlier)
    }
  }

  const DefaultLimits := Limits(1, 60, 30, 600)

  /** The i-th outcome, if a failure, held the repo for the delay its position in the streak calls for. */
  ghost predicate DelayValid(outcomes: seq<Outcome>, limits: Limits, i: nat) {
    i < |outcomes| && outcomes[i].Failed? ==>
      outcomes[i].delay == limits.Delay(outcomes[i].kind, Streak(outcomes[..i], outcomes[i].kind))
  }

  ghost predicate DelaysValid(outcomes: seq<Outcome>, limits: Limits) {
    forall i :: DelayValid(outcomes, limits, i)
  }

  lemma StreakAppend(outcomes: seq<Outcome>, o: Outcome, kind: Kind)
    ensures Streak(outcomes + [o], kind) == if o.Failed? && o.kind == kind then 1 + Streak(outcomes, kind) else 0
  {
    assert (outcomes + [o])[..|outcomes|] == outcomes;
  }

  lemma DelaysAppend(outcomes: seq<Outcome>, o: Outcome, limits: Limits)
    requires DelaysValid(outcomes, limits)
    requires o.Failed? ==> o.delay == limits.Delay(o.kind, Streak(outcomes, o.kind))
    ensures DelaysValid(outcomes + [o], limits)
  {
    forall i: nat
      ensures DelayValid(outcomes + [o], limits, i)
    {
      assert DelayValid(outcomes, limits, i);
      if i < |outcomes| {
        assert (outcomes + [o])[..i] == outcomes[..i];
      } else if i == |outcomes| {
        assert (outcomes + [o])[..i] == outcomes;
      }
    }
  }

  /** Reading the log of outcomes: the k-th consecutive failure of a kind waits min * 2^(k-1), capped. */
  lemma KthFailureDelay(outcomes: seq<Outcome>, limits: Limits, i: nat)
    requires limits.errorMin <= limits.errorMax && limits.offlineMin <= limits.offlineMax
    requires DelaysValid(outcomes, limits) && i < |outcomes| && outcomes[i].Failed?
    ensures var o := outcomes[i];
            var k := Streak(outcomes[..i + 1], o.kind);
            && k >= 1
            && o.delay == match o.kind
               case OfflineFailure => Min(limits.offlineMin * Pow2(k - 1), limits.offlineMax)
               case OtherFailure => Min(limits.errorMin * Pow2(k - 1), limits.errorMax)
  {
    assert DelayValid(outcomes, limits, i);
    assert outcomes[..i + 1] == outcomes[..i] + [outcomes[i]];
    StreakAppend(outcomes[..i], outcomes[i], outcomes[i].kind);
    var earlier := Streak(outcomes[..i], outcomes[i].kind);
    BackoffClosedForm(limits.offlineMin, limits.offlineMax, earlier);
    BackoffClosedForm(limits.errorMin, limits.errorMax, earlier);
  }

  /** A backoff field holds the delay of the next failure of its kind. */
  ghost predicate KindMatches(kind: Kind, errorBackoff: nat, offlineBackoff: nat, outcomes: seq<Outcome>, limits: Limits) {
    (if kind == OfflineFailure then offlineBackoff else errorBackoff) == limits.Delay(kind, Streak(outcomes, kind))
  }

  ghost predicate BackoffsMatch(errorBackoff: nat, offlineBackoff: nat, outcomes: seq<Outcome>, limits: Limits) {
    && (forall kind :: KindMatches(kind, errorBackoff, offlineBackoff, outcomes, limits))
    && DelaysValid(outcomes, limits)
  }

  lemma AfterSuccess(eb: nat, ob: nat, outcomes: seq<Outcome>, limits: Limits)
    requires BackoffsMatch(eb, ob, outcomes, limits)
    ensures BackoffsMatch(limits.errorMin, limits.offlineMin, outcomes + [Succeeded], limits)
  {
    DelaysAppend(outcomes, Succeeded, limits);
    StreakAppend(outcomes, Succeeded, OtherFailure);
    StreakAppend(outcomes, Succeeded, OfflineFailure);
  }

  lemma AfterOffline(eb: nat, ob: nat, outcomes: seq<Outcome>, limits: Limits)
    requires BackoffsMatch(eb, ob, outcomes, limits)
    ensures BackoffsMatch(limits.errorMin, Min(ob * 2, limits.offlineMax), outcomes + [Failed(OfflineFailure, ob)], limits)
  {
    assert KindMatches(OfflineFailure, eb, ob, outcomes, limits);
    DelaysAppend(outcomes, Failed(OfflineFailure, ob), limits);
    StreakAppend(outcomes, Failed(OfflineFailure, ob), OtherFailure);
    StreakAppend(outcomes, Failed(OfflineFailure, ob), OfflineFailure);
  }

  lemma AfterError(eb: nat, ob: nat, outcomes: seq<Outcome>, limits: Limits)
    requires BackoffsMatch(eb, ob, outcomes, limits)
    ensures BackoffsMatch(Min(eb * 2, limits.errorMax), limits.offlineMin, outcomes + [Failed(OtherFailure, eb)], limits)
  {
    assert KindMatches(OtherFailure, eb, ob, outcomes, limits);
    DelaysAppend(outcomes, Failed(OtherFailure, eb), limits);
    StreakAppend(outcomes, Failed(OtherFailure, eb), OtherFailure);
    StreakAppend(outcomes, Failed(OtherFailure, eb), OfflineFailure);
  }

  // ---------- Starts of syncs ----------

  datatype Start = Start(full: bool, immediate: bool, force: bool, at: nat, hold: nat)

  /** A full sync that nobody asked for explicitly never starts before the hold is over. */
  ghost predicate RespectsHold(s: Start) {
    s.full && !s.immediate ==> s.hold <= s.at
  }

  /** Exactly one sync of this kind was started, at `at` or later and under this hold. */
  ghost predicate StartedOne(before: seq<Start>, after: seq<Start>, full: bool, immediate: bool, force: bool, from: nat, hold: nat) {
    && |after| == |before| + 1 && after[..|before|] == before
    && var s := after[|before|];
       s == Start(full, immediate, force, s.at, hold) && from <= s.at
  }

  /** One more outcome, and the hold and retry that follow from it at time `now`. */
  ghost predicate SettledOne(before: seq<Outcome>, after: seq<Outcome>, ok: bool, now: nat, hold: nat, retry: Option<nat>) {
    && |after| == |before| + 1 && after[..|before|] == before && ok == after[|before|].Succeeded?
    && match after[|before|]
       case Succeeded => hold == 0 && retry.None?
       case Failed(OfflineFailure, delay) => hold == now + delay && retry == Some(hold)
       case Failed(OtherFailure, delay) => hold == now + delay && retry.None?
  }

  ghost predicate HeldAt(starts: seq<Start>, i: nat) {
    i < |starts| ==> RespectsHold(starts[i])
  }

  ghost predicate AllRespectHold(starts: seq<Start>) {
    forall i :: HeldAt(starts, i)
  }

  lemma AllRespectHoldMeans(starts: seq<Start>)
    requires AllRespectHold(starts)
    ensures forall i :: 0 <= i < |starts| ==> RespectsHold(starts[i])
  {
    forall i | 0 <= i < |starts|
      ensures RespectsHold(starts[i])
    {
      assert HeldAt(starts, i);
    }
  }

  lemma AllRespectHoldAppend(starts: seq<Start>, s: Start)
    requires AllRespectHold(starts) && RespectsHold(s)
    ensures AllRespectHold(starts + [s])
  {
    forall i: nat
      ensures HeldAt(starts + [s], i)
    {
      assert HeldAt(starts, i);
    }
  }

  lemma AllRespectHoldConcat(a: seq<Start>, b: seq<Start>)
    requires AllRespectHold(a) && AllRespectHold(b)
    ensures AllRespectHold(a + b)
  {
    forall i: nat
      ensures HeldAt(a + b, i)
    {
      assert HeldAt(a, i);
      if i >= |a| {
        assert HeldAt(b, i - |a|);
      }
    }
  }

  /** `end` is what `whole` ends with. */
  ghost predicate EndsWith<T>(whole: seq<T>, end: seq<T>) {
    |end| <= |whole| && whole[|whole| - |end|..] == end
  }

  lemma ConcatEndsWith<T>(a: seq<T>, b: seq<T>)
    ensures EndsWith(a + b, b)
  {
  }

  // ---------- The world around the scheduler ----------

  /**
   What everyone else does at each moment the scheduler leaves them room, and how the n-th sync
   ends. Nothing is known about either, so what is proved holds for all of them.
   */
  datatype World = World(steps: nat -> seq<EnvStep>, results: nat -> bool)

  function Elapsed(steps: seq<EnvStep>): nat {
    if steps == [] then 0 else Takes(steps[0]) + Elapsed(steps[1..])
  }

  function Takes(step: EnvStep): nat {
    match step
    case Tick(d) => d
    case _ => 0
  }

  lemma OneStepClock(e: Env, step: EnvStep)
    ensures Apply(e, step).now == e.now + Takes(step)
  {
    match step
    case Tick(_) =>
    case FileEvent =>
    case Resume =>
    case DeliverKick =>
    case _ =>
  }

  /** The time that passes, and the steps that are taken, before moment `k`. */
  function TimeAt(world: World, k: nat): nat {
    if k == 0 then 0 else TimeAt(world, k - 1) + Elapsed(world.steps(k - 1))
  }

  function StepsAt(world: World, k: nat): nat {
    if k == 0 then 0 else StepsAt(world, k - 1) + |world.steps(k - 1)|
  }

  /** The watcher was cancelled, or the folder taken away, by some step before moment `k`. */
  predicate CancelledAt(world: World, k: nat) {
    k > 0 && (CancelledAt(world, k - 1) || CancelWatcher in world.steps(k - 1))
  }

  predicate GoneAt(world: World, k: nat) {
    k > 0 && (GoneAt(world, k - 1) || FolderGone in world.steps(k - 1))
  }

  lemma {:induction false} StepsDecide(e: Env, steps: seq<EnvStep>)
    ensures ApplyAll(e, steps).cancelled == (e.cancelled || CancelWatcher in steps)
    ensures !ApplyAll(e, steps).present ==> !e.present || FolderGone in steps
    decreases |steps|
  {
    if steps != [] {
      OneStepDecides(e, steps[0]);
      StepsDecide(Apply(e, steps[0]), steps[1..]);
      assert steps == [steps[0]] + steps[1..];
    }
  }

  lemma OneStepDecides(e: Env, step: EnvStep)
    ensures Apply(e, step).cancelled == (e.cancelled || step == CancelWatcher)
    ensures !Apply(e, step).present ==> !e.present || step == FolderGone
  {
    match step
    case Tick(_) =>
    case FileEvent =>
    case Resume =>
    case DeliverKick =>
    case _ =>
  }

  /** Nobody pauses, cancels, takes the folder away or writes the state at moment `i`: time passes and files change. */
  ghost predicate CalmAt(world: World, i: nat) {
    forall step <- world.steps(i) :: step.Tick? || step.FileEvent?
  }

  ghost predicate Calm(world: World) {
    forall i: nat :: CalmAt(world, i)
  }

  /** A file changes at every moment. */
  ghost predicate Eventful(world: World) {
    forall i: nat :: FileEvent in world.steps(i)
  }

  /** Nothing keeps a sync from running. */
  predicate Steady(e: Env) {
    e.present && !e.paused && !e.cancelled && e.status == OtherStatus
  }

  lemma {:induction false} CalmKeepsSteady(e: Env, steps: seq<EnvStep>)
    requires forall step <- steps :: step.Tick? || step.FileEvent?
    ensures Steady(e) ==> Steady(ApplyAll(e, steps))
    decreases |steps|
  {
    if steps != [] {
      CalmKeepsSteady(Apply(e, steps[0]), steps[1..]);
    }
  }

  lemma {:induction false} EventsAreSeen(e: Env, steps: seq<EnvStep>)
    requires FileEvent in steps
    ensures ApplyAll(e, steps).trigger > 0
    decreases |steps|
  {
    if steps[0] == FileEvent {
      AnyInterferenceIsRely(Apply(e, steps[0]), steps[1..]);
    } else {
      assert steps == [steps[0]] + steps[1..];
      EventsAreSeen(Apply(e, steps[0]), steps[1..]);
    }
  }

  ghost predicate ResumesNot(world: World, i: nat) {
    Resume !in world.steps(i)
  }

  ghost predicate ReturnsNot(world: World, i: nat) {
    FolderBack !in world.steps(i)
  }

  /**
   No sync may start any more: the watcher is cancelled, or the repo is paused and nobody resumes it
   from moment `m` on, or its folder is gone and does not come back.
   */
  ghost predicate Barred(world: World, e: Env, m: nat) {
    || e.cancelled
    || (e.paused && forall i: nat :: m <= i ==> ResumesNot(world, i))
    || GoneForGood(world, e, m)
  }

  ghost predicate GoneForGood(world: World, e: Env, m: nat) {
    !e.present && forall i: nat :: m <= i ==> ReturnsNot(world, i)
  }

  lemma {:induction false} StepsKeepBars(e: Env, steps: seq<EnvStep>)
    ensures e.paused && Resume !in steps ==> ApplyAll(e, steps).paused
    ensures !e.present && FolderBack !in steps ==> !ApplyAll(e, steps).present
    ensures e.force ==> ApplyAll(e, steps).force
    ensures ApplyAll(e, steps).force ==> e.force || AskForce in steps
    ensures ApplyAll(e, steps).immediate ==> e.immediate || Nudge in steps || DeliverKick in steps
    ensures FileEvent !in steps ==> ApplyAll(e, steps).trigger == e.trigger
    decreases |steps|
  {
    if steps != [] {
      OneStepKeepsBars(e, steps[0]);
      StepsKeepBars(Apply(e, steps[0]), steps[1..]);
      assert steps == [steps[0]] + steps[1..];
    }
  }

  /** One moment: time, cancellation and absence are what the world makes them, and nothing pending is taken back. */
  lemma MomentPasses(world: World, e: Env, m: nat)
    ensures var f := ApplyAll(e, world.steps(m));
            && Rely(e, f) && f.now == e.now + Elapsed(world.steps(m))
            && f.cancelled == (e.cancelled || CancelWatcher in world.steps(m))
            && (!f.present ==> !e.present || FolderGone in world.steps(m))
  {
    AnyInterferenceIsRely(e, world.steps(m));
    ApplyAllClock(e, world.steps(m));
    StepsDecide(e, world.steps(m));
  }

  lemma MomentBars(world: World, e: Env, m: nat)
    ensures var steps := world.steps(m); var f := ApplyAll(e, steps);
            && (Barred(world, e, m) ==> Barred(world, f, m + 1))
            && (GoneForGood(world, e, m) ==> GoneForGood(world, f, m + 1))
            && (f.force ==> e.force || AskForce in steps)
            && (f.immediate ==> e.immediate || Nudge in steps || DeliverKick in steps)
            && (FileEvent !in steps ==> f.trigger == e.trigger)
  {
    StepsKeepBars(e, world.steps(m));
    StepsDecide(e, world.steps(m));
    assert ResumesNot(world, m) <==> Resume !in world.steps(m);
    assert ReturnsNot(world, m) <==> FolderBack !in world.steps(m);
  }

  lemma MomentCalm(world: World, e: Env, m: nat)
    ensures Calm(world) && Steady(e) ==> Steady(ApplyAll(e, world.steps(m)))
    ensures Eventful(world) ==> ApplyAll(e, world.steps(m)).trigger > 0
  {
    if Calm(world) {
      assert CalmAt(world, m);
      CalmKeepsSteady(e, world.steps(m));
    }
    if FileEvent in world.steps(m) {
      EventsAreSeen(e, world.steps(m));
    }
  }

  lemma OneStepKeepsBars(e: Env, step: EnvStep)
    ensures e.paused && step != Resume ==> Apply(e, step).paused
    ensures !e.present && step != FolderBack ==> !Apply(e, step).present
    ensures e.force ==> Apply(e, step).force
    ensures Apply(e, step).force ==> e.force || step == AskForce
    ensures Apply(e, step).immediate ==> e.immediate || step == Nudge || step == DeliverKick
    ensures step != FileEvent ==> Apply(e, step).trigger == e.trigger
  {
    match step
    case Tick(_) =>
    case FileEvent =>
    case Resume =>
    case DeliverKick =>
    case _ =>
  }

  lemma {:induction false} TimePasses(world: World, j: nat, k: nat)
    requires j < k && forall i :: j <= i < k ==> Elapsed(world.steps(i)) > 0
    ensures TimeAt(world, j) < TimeAt(world, k)
    decreases k
  {
    if j < k - 1 {
      TimePasses(world, j, k - 1);
    }
  }

  lemma {:induction false} ApplyAllClock(e: Env, steps: seq<EnvStep>)
    ensures ApplyAll(e, steps).now == e.now + Elapsed(steps)
    decreases |steps|
  {
    if steps != [] {
      OneStepClock(e, steps[0]);
      ApplyAllClock(Apply(e, steps[0]), steps[1..]);
    }
  }

  // ---------- The scheduler ----------

  class Scheduler {
    const batchWindow: nat
    const fsLag: nat
    const cooldown: nat
    const limits: Limits
    /** Whether there is a state store to consult. */
    const hasState: bool
    const world: World
    /** The moment and the time at which this scheduler took over. */
    const firstMoment: nat
    const born: nat
    /** Whether the watcher was cancelled, and the folder away, before the world's first moment. */
    const cancelledBefore: bool
    const goneBefore: bool

    var errorBackoff: nat
    var offlineBackoff: nat
    var holdUntil: nat
    var cooldownUntil: nat
    var missing: bool
    var fsDue: Option<nat>
    var batching: bool
    var retryDue: Option<nat>
    var retryInitial: bool

    var env: Env
    var busy: bool
    /** How many moments of the world have passed. */
    var moments: nat
    /** How late after the hold an armed retry is due. */
    ghost var retryLag: nat
    ghost var outcomes: seq<Outcome>
    /** The syncs started so far. */
    var starts: seq<Start>
    /** Every state seen so far, at the grain of single environment steps. */
    var trace: seq<View>

    function Now(): View
      reads `env, `fsDue, `retryDue, `missing, `busy
    {
      View(env, fsDue.Some?, retryDue.Some?, missing, busy)
    }

    /** An armed retry is due at the hold, plus the lag; the initial one exists only while nothing is held. */
    ghost predicate RetryValid()
      reads `retryDue, `retryInitial, `holdUntil, `retryLag
    {
      retryDue.Some? ==> if retryInitial then holdUntil == 0 else retryDue.value == holdUntil + retryLag
    }

    ghost predicate BackoffValid()
      reads `errorBackoff, `offlineBackoff, `outcomes
    {
      BackoffsMatch(errorBackoff, offlineBackoff, outcomes, limits)
    }

    /** Time passes only as the world lets it, and each step of the world has left one entry in the trace. */
    ghost predicate Clocked()
      reads `env, `moments, `trace
    {
      && env.now + TimeAt(world, firstMoment) == born + TimeAt(world, moments)
      && |trace| + StepsAt(world, firstMoment) == StepsAt(world, moments)
    }

    /** The watcher is cancelled exactly if someone did that, and the folder is missed only if someone took it away. */
    ghost predicate Grounded()
      reads `env, `moments, `missing
    {
      && env.cancelled == (cancelledBefore || CancelledAt(world, moments))
      && (!env.present || missing ==> goneBefore || GoneAt(world, moments))
    }

    ghost predicate LogsValid()
      reads `starts, `trace, `env, `moments, `missing
    {
      AllRespectHold(starts) && NeverLost(trace) && Clocked() && Grounded()
    }

    ghost predicate Valid()
      reads this
    {
      NoEventLost(Now()) && RetryValid() && BackoffValid() && LogsValid()
    }

    constructor (env: Env, batchWindow: nat, fsLag: nat, cooldown: nat, limits: Limits, hasState: bool, initialDelay: nat,
                 world: World, moment: nat, cancelledBefore: bool, goneBefore: bool)
      requires env.cancelled == (cancelledBefore || CancelledAt(world, moment))
      requires !env.present ==> goneBefore || GoneAt(world, moment)
      ensures Valid() && !busy && !missing && retryDue == Some(env.now + initialDelay) && retryInitial
      ensures this.env == env && holdUntil == 0 && outcomes == [] && starts == [] && trace == [] && fsDue == None
      ensures this.batchWindow == batchWindow && this.fsLag == fsLag && this.cooldown == cooldown
      ensures this.limits == limits && this.hasState == hasState && this.world == world
      ensures errorBackoff == limits.errorMin && offlineBackoff == limits.offlineMin
      ensures firstMoment == moments == moment && born == env.now
      ensures this.cancelledBefore == cancelledBefore && this.goneBefore == goneBefore
    {
      this.env, this.batchWindow, this.fsLag, this.cooldown := env, batchWindow, fsLag, cooldown;
      this.limits, this.hasState, this.world := limits, hasState, world;
      firstMoment, moments, born := moment, moment, env.now;
      this.cancelledBefore, this.goneBefore := cancelledBefore, goneBefore;
      errorBackoff, offlineBackoff, holdUntil, cooldownUntil := limits.errorMin, limits.offlineMin, 0, 0;
      missing, fsDue, batching, busy, retryLag := false, None, false, false, 0;
      retryDue, retryInitial := Some(env.now + initialDelay), true;
      outcomes, starts, trace := [], [], [];
    }

    /** Steps of everyone else, each leaving its state in the trace. */
    method TakeSteps(steps: seq<EnvStep>)
      requires NoEventLost(Now()) && NeverLost(trace)
      modifies `env, `trace
      ensures NoEventLost(Now()) && NeverLost(trace) && env == ApplyAll(old(env), steps)
      ensures old(trace) <= trace && |trace| == |old(trace)| + |steps|
      ensures steps != [] ==> trace[|trace| - 1] == Now()
    {
      ghost var before := Now();
      for i := 0 to |steps|
        invariant NoEventLost(Now()) && NeverLost(trace)
        invariant env == ApplyAll(before.env, steps[..i])
        invariant old(trace) <= trace && |trace| == |old(trace)| + i
        invariant i > 0 ==> trace[|trace| - 1] == Now()
      {
        assert steps[..i + 1] == steps[..i] + [steps[i]];
        ApplyAllAppend(before.env, steps[..i], steps[i]);
        InterferenceLosesNothing(before, steps[..i + 1]);
        env := Apply(env, steps[i]);
        NeverLostAppend(trace, Now());
        trace := trace + [Now()];
      }
      assert steps[..|steps|] == steps;
    }

    /** The part of the invariant that must hold whenever others may act. */
    ghost predicate Sound()
      reads `env, `fsDue, `retryDue, `missing, `busy, `starts, `trace, `moments
    {
      NoEventLost(Now()) && LogsValid()
    }

    /** What everyone else does at this moment. */
    method Interfere()
      requires Sound()
      modifies `env, `trace, `moments
      ensures Sound() && Rely(old(env), env)
      ensures moments == old(moments) + 1 && env == ApplyAll(old(env), world.steps(old(moments)))
      ensures env.now == old(env.now) + Elapsed(world.steps(old(moments)))
      ensures old(trace) <= trace && |trace| == |old(trace)| + |world.steps(old(moments))|
      ensures world.steps(old(moments)) != [] ==> trace[|trace| - 1] == Now()
      ensures Calm(world) && Steady(old(env)) ==> Steady(env)
      ensures Eventful(world) ==> env.trigger > 0
      ensures Barred(world, old(env), old(moments)) ==> Barred(world, env, moments)
      ensures GoneForGood(world, old(env), old(moments)) ==> GoneForGood(world, env, moments)
      ensures env.force ==> old(env.force) || AskForce in world.steps(old(moments))
      ensures FileEvent !in world.steps(old(moments)) ==> env.trigger == old(env.trigger)
      ensures env.immediate ==> old(env.immediate) || Nudge in world.steps(old(moments)) || DeliverKick in world.steps(old(moments))
    {
      var steps := world.steps(moments);
      MomentPasses(world, env, moments);
      MomentBars(world, env, moments);
      MomentCalm(world, env, moments);
      TakeSteps(steps);
      moments := moments + 1;
    }

    /** What the rest of the scheduler needs to know of a moment. */
    method LetOthers()
      requires Sound()
      modifies `env, `trace, `moments
      ensures Sound() && moments == old(moments) + 1 && old(trace) <= trace
      ensures env.now == old(env.now) + Elapsed(world.steps(old(moments)))
      ensures (old(env.force) ==> env.force) && (env.force ==> old(env.force) || AskForce in world.steps(old(moments)))
      ensures old(env.immediate) ==> env.immediate
      ensures env.immediate ==> old(env.immediate) || Nudge in world.steps(old(moments)) || DeliverKick in world.steps(old(moments))
      ensures old(env.trigger) <= env.trigger
      ensures (old(env.cancelled) ==> env.cancelled) && (Barred(world, old(env), old(moments)) ==> Barred(world, env, moments))
      ensures GoneForGood(world, old(env), old(moments)) ==> GoneForGood(world, env, moments)
      ensures Calm(world) && Steady(old(env)) ==> Steady(env)
      ensures Eventful(world) ==> env.trigger > 0
      ensures FileEvent !in world.steps(old(moments)) ==> env.trigger == old(env.trigger)
    {
      Interfere();
    }

    /** True when the folder is there; otherwise the scheduler is done until it comes back. */
    method CheckExists() returns (exists_: bool)
      requires Sound()
      modifies `env, `missing
      ensures Sound() && exists_ == old(env.present)
      ensures exists_ ==> env == old(env) && missing == old(missing)
      ensures !exists_ ==> missing && env == old(env).(status := Preflight)
    {
      if env.present {
        return true;
      }
      missing := true;
      env := env.(status := Preflight);
      return false;
    }

    /** The file timer is set afresh: a batch window from now, or the lag after now and the cooldown. */
    ghost predicate TimerSet()
      reads `fsDue, `env, `cooldownUntil
    {
      fsDue == Some(if batchWindow > 0 then env.now + batchWindow
                    else (if cooldownUntil > env.now then cooldownUntil else env.now) + fsLag)
    }

    /** A batch window restarts on each event; otherwise the timer waits the lag on top of what is left of the cooldown. */
    method OnFileEvent()
      modifies `fsDue, `batching
      ensures TimerSet() && batching == (batchWindow > 0 || old(batching))
    {
      if batchWindow > 0 {
        fsDue := Some(env.now + batchWindow);
        batching := true;
        return;
      }
      var delay := fsLag;
      if cooldownUntil > env.now {
        delay := delay + (cooldownUntil - env.now);
      }
      fsDue := Some(env.now + delay);
    }

    method DisarmFS()
      modifies `fsDue, `batching
      ensures fsDue.None? && !batching
    {
      fsDue := None;
      batching := false;
    }

    method ArmRetry(d: int, initial: bool)
      modifies `retryDue, `retryInitial
      ensures old(retryDue).Some? ==> retryDue == old(retryDue) && retryInitial == old(retryInitial)
      ensures old(retryDue).None? ==> retryDue == Some(env.now + if d < 0 then 0 else d) && retryInitial == initial
    {
      if retryDue.Some? {
        return;
      }
      var wait := if d < 0 then 0 else d;
      retryDue, retryInitial := Some(env.now + wait), initial;
    }

    /** A full sync would run and fail now, with files changing meanwhile. */
    ghost predicate WillFail(e: Env, n: nat) {
      Calm(world) && Eventful(world) && Steady(e) && !world.results(n) && batchWindow > 0
    }

    /** Just after the n-th sync failed with this backoff: held, no retry, and the timer armed for what changed meanwhile. */
    ghost predicate JustFailed(backoff: nat, n: nat)
      reads this
    {
      && Steady(env) && !missing && |starts| == n && holdUntil == env.now + backoff && retryDue.None?
      && errorBackoff == Min(backoff * 2, limits.errorMax) && fsDue == Some(env.now + batchWindow)
    }

    /**
     Takes the sync lock and runs one sync. The attempt begins, and the events so far count as
     handled, once the watcher is found not cancelled; events during the run arm the timer again.
     */
    method Execute(full: bool, immediate: bool, force: bool) returns (ran: bool, ok: bool)
      requires Sound() && (full && !immediate ==> holdUntil <= env.now)
      modifies `env, `trace, `moments, `starts, `busy, `cooldownUntil, `fsDue, `batching
      ensures Sound() && !busy && old(env.now) <= env.now
      ensures old(moments) < moments && old(trace) <= trace
      ensures !ran ==> env.cancelled
      ensures starts == old(starts) ==> !ran && cooldownUntil == old(cooldownUntil)
      ensures starts != old(starts) ==>
                && StartedOne(old(starts), starts, full, immediate, force, old(env.now), holdUntil)
                && ok == world.results(|old(starts)|)
                && old(env.now) + cooldown <= cooldownUntil <= env.now + cooldown
      ensures Calm(world) && Steady(old(env)) ==>
                && ran && starts != old(starts) && Steady(env)
                && (Eventful(world) && batchWindow > 0 ==> fsDue == Some(env.now + batchWindow))
      ensures old(env.cancelled) ==> env.cancelled && starts == old(starts)
    {
      var n := |starts|;
      var began := BeginAttempt(full, immediate, force);
      if !began {
        return false, false;
      }
      ran, ok := RunSync(n);
    }

    /** The n-th sync runs and ends. */
    method RunSync(n: nat) returns (ran: bool, ok: bool)
      requires Sound()
      modifies `env, `trace, `moments, `cooldownUntil, `fsDue, `batching
      ensures Sound() && old(env.now) <= env.now && old(moments) < moments && old(trace) <= trace
      ensures (!ran ==> env.cancelled) && ok == world.results(n)
      ensures old(env.now) + cooldown <= cooldownUntil <= env.now + cooldown
      ensures Calm(world) && Steady(old(env)) ==>
                && ran && Steady(env)
                && (Eventful(world) && batchWindow > 0 ==> fsDue == Some(env.now + batchWindow))
      ensures old(env.cancelled) ==> !ran
    {
      LetOthers();
      ok := world.results(n);
      ran := AfterAttempt();
    }

    /** Under the sync lock: unless cancelled, the attempt begins and what happened so far is in it. */
    method BeginAttempt(full: bool, immediate: bool, force: bool) returns (began: bool)
      requires Sound() && (full && !immediate ==> holdUntil <= env.now)
      modifies `env, `trace, `moments, `starts, `busy
      ensures Sound() && !busy && old(env.now) <= env.now
      ensures old(moments) < moments && old(trace) <= trace
      ensures !began ==> env.cancelled && starts == old(starts)
      ensures began ==> StartedOne(old(starts), starts, full, immediate, force, old(env.now), holdUntil)
      ensures Calm(world) && Steady(old(env)) ==> began && Steady(env)
      ensures old(env.cancelled) ==> env.cancelled && starts == old(starts)
    {
      LetOthers();
      busy := false;
      if env.cancelled {
        return false;
      }
      var start := Start(full, immediate, force, env.now, holdUntil);
      AllRespectHoldAppend(starts, start);
      starts := starts + [start];
      env := env.(unsynced := false);
      return true;
    }

    /** The cooldown begins; events that came in during the attempt arm the timer. */
    method AfterAttempt() returns (ran: bool)
      requires Sound()
      modifies `env, `trace, `moments, `cooldownUntil, `fsDue, `batching
      ensures Sound() && old(env.now) <= env.now
      ensures old(moments) < moments && old(trace) <= trace
      ensures !ran ==> env.cancelled
      ensures cooldownUntil == old(env.now) + cooldown
      ensures Calm(world) && Steady(old(env)) ==>
                && ran && Steady(env)
                && (Eventful(world) && batchWindow > 0 ==> fsDue == Some(env.now + batchWindow))
      ensures old(env.cancelled) ==> env.cancelled
      ensures old(env.cancelled) ==> !ran
    {
      StartCooldown();
      LetOthers();
      ran := !env.cancelled;
      if ran {
        DrainAfter();
      }
    }

    method StartCooldown()
      requires Sound()
      modifies `cooldownUntil
      ensures Sound() && cooldownUntil == env.now + cooldown
    {
      cooldownUntil := env.now + cooldown;
    }

    method DrainAfter()
      requires Sound()
      modifies `env, `trace, `moments, `fsDue, `batching
      ensures Sound() && old(env.now) <= env.now && old(moments) < moments && old(trace) <= trace
      ensures Calm(world) && Steady(old(env)) ==> Steady(env)
      ensures Eventful(world) && batchWindow > 0 ==> fsDue == Some(env.now + batchWindow)
    {
      LetOthers();
      DrainTrigger();
    }

    /** Empties the trigger channel; whatever was in it arms the timer once. */
    method DrainTrigger()
      requires Sound()
      modifies `env, `fsDue, `batching
      ensures Sound() && env == old(env).(trigger := 0)
      ensures if old(env.trigger) > 0 then TimerSet() else fsDue == old(fsDue)
    {
      if env.trigger > 0 {
        OnFileEvent();
      }
      env := env.(trigger := 0);
    }

    method LocalCommitAllowed() returns (allowed: bool)
      ensures allowed == (!hasState || env.status != Preflight)
    {
      allowed := !hasState || env.status != Preflight;
    }

    /** A pause ends the wake-up. */
    method PassPause() returns (go: bool)
      requires Sound() && busy
      modifies `env, `trace, `moments, `busy
      ensures Sound() && busy == go && old(env.now) <= env.now
      ensures old(moments) < moments && old(trace) <= trace
      ensures !go ==> env.paused
      ensures Calm(world) && Steady(old(env)) ==> go && Steady(env)
      ensures Barred(world, old(env), old(moments)) ==> Barred(world, env, moments) && (go ==> env.cancelled || GoneForGood(world, env, moments))
    {
      LetOthers();
      go := !env.paused;
      busy := go;
    }

    /** So does a missing folder. */
    method PassFolder() returns (go: bool)
      requires Sound() && busy
      modifies `env, `trace, `moments, `busy, `missing
      ensures Sound() && busy == go && old(env.now) <= env.now
      ensures old(moments) < moments && old(trace) <= trace
      ensures if go then env.present && missing == old(missing) else missing
      ensures Calm(world) && Steady(old(env)) ==> go && Steady(env)
      ensures Barred(world, old(env), old(moments)) ==> Barred(world, env, moments)
      ensures (old(env.cancelled) ==> env.cancelled) && (GoneForGood(world, old(env), old(moments)) ==> !go)
    {
      LetOthers();
      go := CheckExists();
      busy := go;
    }

    /** The checks before any sync: the timer is disarmed, a pause or a missing folder ends the wake-up. */
    method PassGates() returns (go: bool)
      requires Sound() && busy
      modifies `env, `trace, `moments, `busy, `fsDue, `batching, `missing
      ensures Sound() && busy == go && old(env.now) <= env.now
      ensures old(moments) < moments && old(trace) <= trace
      ensures go ==> env.present && missing == old(missing) && fsDue.None?
      ensures !go ==> env.paused || missing
      ensures Calm(world) && Steady(old(env)) ==> go && Steady(env)
      ensures Barred(world, old(env), old(moments)) ==> Barred(world, env, moments) && (go ==> env.cancelled)
    {
      DisarmFS();
      go := PassPause();
      if go {
        go := PassFolder();
      }
    }

    /** A local-only run: hold, backoffs and retry are not touched. */
    method FireLocal()
      requires Sound() && busy
      modifies `env, `trace, `moments, `starts, `busy, `cooldownUntil, `fsDue, `batching, `missing
      ensures Sound() && !busy && old(env.now) <= env.now
      ensures old(moments) < moments && old(trace) <= trace
      ensures starts == old(starts) ==> env.paused || missing || env.cancelled
      ensures starts != old(starts) ==> StartedOne(old(starts), starts, false, false, false, old(env.now), holdUntil)
      ensures Barred(world, old(env), old(moments)) ==> Barred(world, env, moments) && starts == old(starts)
    {
      var go := PassGates();
      if go {
        var ran, ok := Execute(false, false, false);
      }
    }

    method OnSuccess()
      requires BackoffValid() && retryDue.None?
      modifies `errorBackoff, `offlineBackoff, `holdUntil, `outcomes
      ensures BackoffValid() && outcomes == old(outcomes) + [Succeeded] && holdUntil == 0
    {
      AfterSuccess(errorBackoff, offlineBackoff, outcomes, limits);
      errorBackoff, offlineBackoff, holdUntil := limits.errorMin, limits.offlineMin, 0;
      outcomes := outcomes + [Succeeded];
    }

    method OnOffline()
      requires BackoffValid() && retryDue.None?
      modifies `errorBackoff, `offlineBackoff, `holdUntil, `retryDue, `retryInitial, `retryLag, `outcomes
      ensures BackoffValid() && RetryValid()
      ensures outcomes == old(outcomes) + [Failed(OfflineFailure, old(offlineBackoff))]
      ensures holdUntil == env.now + old(offlineBackoff) && retryDue == Some(holdUntil)
    {
      AfterOffline(errorBackoff, offlineBackoff, outcomes, limits);
      var delay := offlineBackoff;
      offlineBackoff := Min(offlineBackoff * 2, limits.offlineMax);
      errorBackoff := limits.errorMin;
      holdUntil := env.now + delay;
      ArmRetry(delay, false);
      retryLag, outcomes := 0, outcomes + [Failed(OfflineFailure, delay)];
    }

    method OnError()
      requires BackoffValid()
      modifies `errorBackoff, `offlineBackoff, `holdUntil, `outcomes
      ensures BackoffValid() && outcomes == old(outcomes) + [Failed(OtherFailure, old(errorBackoff))]
      ensures holdUntil == env.now + old(errorBackoff) && errorBackoff == Min(old(errorBackoff) * 2, limits.errorMax)
    {
      AfterError(errorBackoff, offlineBackoff, outcomes, limits);
      outcomes := outcomes + [Failed(OtherFailure, errorBackoff)];
      offlineBackoff := limits.offlineMin;
      holdUntil := env.now + errorBackoff;
      errorBackoff := Min(errorBackoff * 2, limits.errorMax);
    }

    /** Takes the consequences of a full sync that ran. */
    method Settle(ok: bool)
      requires BackoffValid() && Sound() && retryDue.None?
      modifies `env, `missing, `errorBackoff, `offlineBackoff, `holdUntil, `retryDue, `retryInitial, `retryLag, `outcomes
      ensures BackoffValid() && Sound() && RetryValid() && env.now == old(env.now)
      ensures ok ==> outcomes == old(outcomes) + [Succeeded] && holdUntil == 0 && retryDue.None?
      ensures !ok && hasState && old(env.status) == Offline ==>
                && outcomes == old(outcomes) + [Failed(OfflineFailure, old(offlineBackoff))]
                && holdUntil == env.now + old(offlineBackoff) && retryDue == Some(holdUntil)
      ensures !ok && !(hasState && old(env.status) == Offline) && old(env.present) ==>
                && outcomes == old(outcomes) + [Failed(OtherFailure, old(errorBackoff))]
                && holdUntil == env.now + old(errorBackoff) && retryDue.None?
                && errorBackoff == Min(old(errorBackoff) * 2, limits.errorMax) && env == old(env) && missing == old(missing)
      ensures !ok && !(hasState && old(env.status) == Offline) && !old(env.present) ==>
                && missing && outcomes == old(outcomes) && holdUntil == old(holdUntil) && retryDue.None?
                && errorBackoff == old(errorBackoff) && offlineBackoff == old(offlineBackoff)
    {
      if ok {
        OnSuccess();
      } else if hasState && env.status == Offline {
        OnOffline();
      } else if !env.present {
        var _ := CheckExists();
      } else {
        OnError();
      }
    }

    /** Settle, said as one more outcome. */
    method SettleOne(ok: bool)
      requires BackoffValid() && Sound() && retryDue.None?
      modifies `env, `missing, `errorBackoff, `offlineBackoff, `holdUntil, `retryDue, `retryInitial, `retryLag, `outcomes
      ensures BackoffValid() && Sound() && RetryValid() && env.now == old(env.now)
      ensures outcomes == old(outcomes) ==>
                && !ok && missing && holdUntil == old(holdUntil)
                && errorBackoff == old(errorBackoff) && offlineBackoff == old(offlineBackoff)
      ensures outcomes != old(outcomes) ==> SettledOne(old(outcomes), outcomes, ok, env.now, holdUntil, retryDue)
      ensures !ok && Steady(old(env)) ==>
                && Steady(env) && missing == old(missing) && retryDue.None? && holdUntil == env.now + old(errorBackoff)
                && errorBackoff == Min(old(errorBackoff) * 2, limits.errorMax)
    {
      Settle(ok);
    }

    /** A full sync whose gates were passed, and what follows from it. */
    method FireOpen(immediate: bool, force: bool)
      requires Sound() && BackoffValid() && retryDue.None?
      requires !immediate ==> holdUntil <= env.now
      modifies this
      ensures Valid() && !busy && old(env.now) <= env.now
      ensures old(moments) < moments && old(trace) <= trace
      ensures starts == old(starts) ==> env.cancelled && outcomes == old(outcomes)
      ensures starts != old(starts) ==>
                StartedOne(old(starts), starts, true, immediate, force, old(env.now), old(holdUntil))
      ensures outcomes == old(outcomes) ==>
                && (env.cancelled || missing) && holdUntil == old(holdUntil)
                && errorBackoff == old(errorBackoff) && offlineBackoff == old(offlineBackoff)
      ensures outcomes != old(outcomes) ==>
                SettledOne(old(outcomes), outcomes, world.results(|old(starts)|), env.now, holdUntil, retryDue)
      ensures WillFail(old(env), |old(starts)|) && !old(missing) ==> JustFailed(old(errorBackoff), |old(starts)| + 1)
      ensures old(env.cancelled) ==> env.cancelled && starts == old(starts)
    {
      var ran, ok := Execute(true, immediate, force);
      if ran {
        SettleOne(ok);
      }
    }

    /** Unless paused, missing or cancelled, one full sync, with hold and retry following from how it ended. */
    method Fire(immediate: bool, force: bool)
      requires Valid() && busy && (!immediate ==> holdUntil <= env.now)
      modifies this
      ensures Valid() && !busy && old(env.now) <= env.now
      ensures old(moments) < moments && old(trace) <= trace
      ensures starts == old(starts) ==> (env.paused || missing || env.cancelled) && outcomes == old(outcomes)
      ensures starts != old(starts) ==>
                StartedOne(old(starts), starts, true, immediate, force, old(env.now), old(holdUntil))
      ensures outcomes == old(outcomes) ==>
                holdUntil == old(holdUntil) && errorBackoff == old(errorBackoff) && offlineBackoff == old(offlineBackoff)
      ensures outcomes != old(outcomes) ==>
                SettledOne(old(outcomes), outcomes, world.results(|old(starts)|), env.now, holdUntil, retryDue)
      ensures WillFail(old(env), |old(starts)|) && !old(missing) ==> JustFailed(old(errorBackoff), |old(starts)| + 1)
      ensures Barred(world, old(env), old(moments)) ==> Barred(world, env, moments) && starts == old(starts)
    {
      var go := PassGates();
      if !go {
        return;
      }
      retryDue := None;
      FireOpen(immediate, force);
    }

    /** While held, a file event is still committed locally, unless the last preflight failed. */
    method CommitHeld(fileEvent: bool)
      requires Sound() && busy
      modifies `env, `trace, `moments, `starts, `busy, `cooldownUntil, `fsDue, `batching, `missing
      ensures Sound() && old(env.now) <= env.now && old(moments) <= moments && old(trace) <= trace
      ensures !fileEvent || (hasState && old(env.status) == Preflight) ==> moments == old(moments) && starts == old(starts)
      ensures fileEvent && !(hasState && old(env.status) == Preflight) ==>
                && old(moments) < moments
                && (starts == old(starts) ==> env.paused || missing || env.cancelled)
      ensures starts != old(starts) ==> StartedOne(old(starts), starts, false, false, false, old(env.now), holdUntil)
      ensures Barred(world, old(env), old(moments)) ==> Barred(world, env, moments) && starts == old(starts)
    {
      if fileEvent {
        var allowed := LocalCommitAllowed();
        if allowed {
          FireLocal();
        }
      }
    }

    /**
     A wake-up while held: only a file event may still be committed locally, and a retry is
     armed. The wait was measured before the local run, so a retry armed here is due exactly at
     the hold if and only if the local run took no time.
     */
    method Defer(fileEvent: bool)
      requires Sound() && RetryValid() && busy && env.now < holdUntil
      modifies `env, `trace, `moments, `starts, `busy, `cooldownUntil, `fsDue, `batching, `missing,
               `retryDue, `retryInitial, `retryLag
      ensures Sound() && RetryValid() && !busy && old(env.now) <= env.now
      ensures old(moments) <= moments && old(trace) <= trace
      ensures !fileEvent || (hasState && old(env.status) == Preflight) ==> moments == old(moments) && starts == old(starts)
      ensures fileEvent && !(hasState && old(env.status) == Preflight) ==>
                && old(moments) < moments
                && (starts == old(starts) ==> env.paused || missing || env.cancelled)
      ensures starts != old(starts) ==> StartedOne(old(starts), starts, false, false, false, old(env.now), holdUntil)
      ensures retryDue == if old(retryDue).Some? then old(retryDue)
                          else Some(holdUntil + (env.now - old(env.now)))
      ensures Barred(world, old(env), old(moments)) ==> Barred(world, env, moments) && starts == old(starts)
    {
      var wait := holdUntil - env.now;
      CommitHeld(fileEvent);
      ArmHeld(wait, old(env.now));
    }

    method ArmHeld(wait: nat, ghost measured: nat)
      requires Sound() && RetryValid() && measured <= env.now && holdUntil == measured + wait
      modifies `retryDue, `retryInitial, `retryLag, `busy
      ensures Sound() && RetryValid() && !busy
      ensures retryDue == if old(retryDue).Some? then old(retryDue) else Some(holdUntil + (env.now - measured))
    {
      if retryDue.None? {
        retryLag := env.now - measured;
      }
      ArmRetry(wait, false);
      busy := false;
    }

    /** How a request at time `now` goes when the sync would fail: it fails, or while held a retry is armed. */
    ghost predicate Asked(now: nat, moment: nat, n: nat, hold: nat, retry: Option<nat>, backoff: nat, fileEvent: bool)
      reads this
    {
      if now >= hold then JustFailed(backoff, n + 1)
      else
        && holdUntil == hold && |starts| >= n && (fileEvent ==> moments > moment) && now <= env.now
        && retryDue == if retry.Some? then retry else Some(hold + (env.now - now))
    }

    /** A wake-up that is not an explicit request: it syncs, unless the repo is held. */
    method Request(fileEvent: bool)
      requires Valid() && busy
      modifies this
      ensures Valid() && !busy && old(env.now) <= env.now
      ensures old(moments) <= moments && old(trace) <= trace && old(starts) <= starts
      ensures old(env.now) < old(holdUntil) ==>
                && holdUntil == old(holdUntil) && outcomes == old(outcomes)
                && errorBackoff == old(errorBackoff) && offlineBackoff == old(offlineBackoff)
                && retryDue == if old(retryDue).Some? then old(retryDue) else Some(holdUntil + (env.now - old(env.now)))
      ensures old(env.now) >= old(holdUntil) && starts == old(starts) ==> env.paused || missing || env.cancelled
      ensures starts != old(starts) ==>
                StartedOne(old(starts), starts, old(env.now) >= old(holdUntil), false, false, old(env.now), old(holdUntil))
      ensures WillFail(old(env), |old(starts)|) && !old(missing) ==>
                Asked(old(env.now), old(moments), |old(starts)|, old(holdUntil), old(retryDue), old(errorBackoff), fileEvent)
      ensures Barred(world, old(env), old(moments)) ==> Barred(world, env, moments) && starts == old(starts)
    {
      if env.now < holdUntil {
        Defer(fileEvent);
      } else {
        Fire(false, false);
      }
    }

    /** An explicit request is taken, with the force flag as it is by then. */
    method TakeRequest() returns (force: bool)
      requires Sound() && !busy && env.immediate
      modifies `env, `trace, `moments, `busy
      ensures Sound() && busy && (old(env.force) ==> force) && old(env.now) <= env.now
      ensures old(moments) < moments && old(trace) <= trace
      ensures Barred(world, old(env), old(moments)) ==> Barred(world, env, moments)
      ensures (force ==> old(env.force) || AskForce in world.steps(old(moments))) && !env.force
      ensures env.immediate ==> Nudge in world.steps(old(moments)) || DeliverKick in world.steps(old(moments))
    {
      busy, env := true, env.(immediate := false);
      LetOthers();
      force := env.force;
      env := env.(force := false);
    }

    /** An explicit request starts one full sync whatever is held, forced if that was asked for. */
    method OnImmediate() returns (force: bool)
      requires Valid() && !busy && env.immediate
      modifies this
      ensures Valid() && !busy && (old(env.force) ==> force)
      ensures old(moments) < moments && old(trace) <= trace && old(starts) <= starts
      ensures starts == old(starts) ==> env.paused || missing || env.cancelled
      ensures starts != old(starts) ==> StartedOne(old(starts), starts, true, true, force, old(env.now), old(holdUntil))
      ensures Barred(world, old(env), old(moments)) ==> Barred(world, env, moments) && starts == old(starts)
      ensures force ==> old(env.force) || AskForce in world.steps(old(moments))
    {
      force := TakeRequest();
      Fire(true, force);
    }

    method TakeTrigger()
      requires Sound() && !busy && env.trigger > 0
      modifies `env, `trace, `moments, `busy
      ensures Sound() && busy && old(moments) < moments && old(trace) <= trace
      ensures Barred(world, old(env), old(moments)) ==> Barred(world, env, moments)
      ensures FileEvent !in world.steps(old(moments)) ==> env.trigger == old(env.trigger) - 1
    {
      busy, env := true, env.(trigger := env.trigger - 1);
      LetOthers();
    }

    method OnTrigger()
      requires Sound() && !busy && env.trigger > 0
      modifies `env, `trace, `moments, `busy, `missing, `fsDue, `batching
      ensures Sound() && !busy
      ensures old(moments) < moments && old(trace) <= trace
      ensures Barred(world, old(env), old(moments)) ==> Barred(world, env, moments)
      ensures missing || TimerSet()
      ensures FileEvent !in world.steps(old(moments)) ==> env.trigger == old(env.trigger) - 1
    {
      TakeTrigger();
      var there := CheckExists();
      if there {
        OnFileEvent();
      }
      busy := false;
    }

    /** How a timer's wake-up at time `now` goes when the sync would fail: its request is made after one more moment. */
    ghost predicate Woken(now: nat, moment: nat, n: nat, hold: nat, retry: Option<nat>, backoff: nat, fileEvent: bool)
      reads this
    {
      Asked(now + Elapsed(world.steps(moment)), moment + 1, n, hold, retry, backoff, fileEvent)
    }

    method OnFileTimer()
      requires Valid() && !busy && !missing && fsDue.Some?
      modifies this
      ensures Valid() && !busy
      ensures old(moments) < moments && old(trace) <= trace && old(starts) <= starts
      ensures WillFail(old(env), |old(starts)|) ==>
                Woken(old(env.now), old(moments), |old(starts)|, old(holdUntil), old(retryDue), old(errorBackoff), true)
      ensures Barred(world, old(env), old(moments)) ==> Barred(world, env, moments) && starts == old(starts)
      ensures starts != old(starts) || retryDue.Some? || env.paused || missing || env.cancelled
    {
      WakeUp();
      Request(true);
    }

    /** A timer has fired: nothing is armed any more, and others may act before the request is made. */
    method WakeUp()
      requires Valid() && !busy
      modifies `env, `trace, `moments, `busy, `fsDue, `batching
      ensures Valid() && busy && moments == old(moments) + 1 && old(trace) <= trace
      ensures env.now == old(env.now) + Elapsed(world.steps(old(moments)))
      ensures Calm(world) && Steady(old(env)) ==> Steady(env)
      ensures Barred(world, old(env), old(moments)) ==> Barred(world, env, moments)
      ensures fsDue.None?
      ensures WillFail(old(env), |starts|) ==> WillFail(env, |starts|)
    {
      busy := true;
      DisarmFS();
      LetOthers();
    }

    method OnRetryTimer()
      requires Valid() && !busy && !missing && retryDue.Some?
      modifies this
      ensures Valid() && !busy
      ensures old(moments) < moments && old(trace) <= trace && old(starts) <= starts
      ensures WillFail(old(env), |old(starts)|) ==>
                Woken(old(env.now), old(moments), |old(starts)|, old(holdUntil), None, old(errorBackoff), false)
      ensures Barred(world, old(env), old(moments)) ==> Barred(world, env, moments) && starts == old(starts)
      ensures starts != old(starts) || retryDue.Some? || env.paused || missing || env.cancelled
    {
      TakeRetry();
      Request(false);
    }

    method TakeRetry()
      requires Valid() && !busy
      modifies `env, `trace, `moments, `busy, `retryDue
      ensures Valid() && busy && retryDue.None? && moments == old(moments) + 1 && old(trace) <= trace
      ensures env.now == old(env.now) + Elapsed(world.steps(old(moments)))
      ensures Calm(world) && Steady(old(env)) ==> Steady(env)
      ensures Barred(world, old(env), old(moments)) ==> Barred(world, env, moments)
      ensures WillFail(old(env), |starts|) ==> WillFail(env, |starts|)
    {
      busy, retryDue := true, None;
      LetOthers();
    }

    /** Others act between two rounds. */
    method Turn()
      requires Valid() && !busy
      modifies `env, `trace, `moments
      ensures Valid() && moments == old(moments) + 1 && old(trace) <= trace
      ensures env.now == old(env.now) + Elapsed(world.steps(old(moments)))
      ensures (old(env.immediate) ==> env.immediate) && old(env.trigger) <= env.trigger && (old(env.cancelled) ==> env.cancelled)
      ensures Barred(world, old(env), old(moments)) ==> Barred(world, env, moments)
      ensures GoneForGood(world, old(env), old(moments)) ==> GoneForGood(world, env, moments)
      ensures WillFail(old(env), |starts|) ==> WillFail(env, |starts|)
    {
      LetOthers();
    }

    /** One round of the select loop; `which` is the ready case the runtime happens to pick. */
    method Select(which: nat) returns (stop: bool)
      requires Valid() && !busy && !missing
      modifies this
      ensures Valid() && !busy && (stop ==> env.cancelled)
      ensures old(moments) < moments && old(trace) <= trace && old(starts) <= starts
      ensures WillFail(old(env), |old(starts)|) ==>
                Picked(old(env.now) + Elapsed(world.steps(old(moments))), which, old(moments) + 1, |old(starts)|,
                       old(holdUntil), old(fsDue), old(retryDue), old(errorBackoff))
      ensures Barred(world, old(env), old(moments)) ==> Barred(world, env, moments) && starts == old(starts)
      ensures Handled(which, old(env.immediate), old(env.trigger) > 0, old(env.now) >= old(holdUntil),
                      Due(which, old(fsDue), old(retryDue), old(env.now)), old(starts))
      ensures which == 6 && GoneForGood(world, old(env), old(moments)) ==> missing
      ensures which == 0 && old(env.cancelled) ==> stop
    {
      Turn();
      stop := which == 0 && env.cancelled;
      if !stop {
        Dispatch(which);
      }
    }

    static predicate Due(which: nat, fs: Option<nat>, retry: Option<nat>, now: nat) {
      (which == 3 && fs.Some? && fs.value <= now) || (which == 4 && retry.Some? && retry.value <= now)
    }

    /**
     A request, or a poll while nothing is held, starts a sync unless the repo is paused or missing or the watcher
     cancelled; a file event arms the timer unless the folder is missing; a timer that is due starts a sync or, while
     held, leaves a retry armed.
     */
    ghost predicate Handled(which: nat, immediate: bool, trigger: bool, free: bool, due: bool, before: seq<Start>)
      reads this
    {
      && ((which == 1 && immediate) || (which == 5 && free) ==> starts != before || env.paused || missing || env.cancelled)
      && (which == 2 && trigger ==> missing || TimerSet())
      && (due ==> starts != before || retryDue.Some? || env.paused || missing || env.cancelled)
    }

    method Dispatch(which: nat)
      requires Valid() && !busy && !missing
      modifies this
      ensures Valid() && !busy
      ensures old(moments) <= moments && old(trace) <= trace && old(starts) <= starts
      ensures WillFail(old(env), |old(starts)|) ==>
                Picked(old(env.now), which, old(moments), |old(starts)|, old(holdUntil), old(fsDue), old(retryDue), old(errorBackoff))
      ensures Barred(world, old(env), old(moments)) ==> Barred(world, env, moments) && starts == old(starts)
      ensures Handled(which, old(env.immediate), old(env.trigger) > 0, old(env.now) >= old(holdUntil),
                      Due(which, old(fsDue), old(retryDue), old(env.now)), old(starts))
      ensures which == 6 && !old(env.present) ==> missing
    {
      if which == 1 && env.immediate {
        var _ := OnImmediate();
      } else if which == 2 && env.trigger > 0 {
        OnTrigger();
      } else {
        OnTimers(which);
      }
    }

    /** What comes of picking a timer that is due. */
    ghost predicate Picked(now: nat, which: nat, moment: nat, n: nat, hold: nat, fs: Option<nat>, retry: Option<nat>, backoff: nat)
      reads this
    {
      && (which == 3 && fs.Some? && fs.value <= now ==> Woken(now, moment, n, hold, retry, backoff, true))
      && (which == 4 && retry.Some? && retry.value <= now ==> Woken(now, moment, n, hold, None, backoff, false))
    }

    /** The cases of the select that the clock makes ready. */
    method OnTimers(which: nat)
      requires Valid() && !busy && !missing
      modifies this
      ensures Valid() && !busy
      ensures old(moments) <= moments && old(trace) <= trace && old(starts) <= starts
      ensures WillFail(old(env), |old(starts)|) ==>
                Picked(old(env.now), which, old(moments), |old(starts)|, old(holdUntil), old(fsDue), old(retryDue), old(errorBackoff))
      ensures Barred(world, old(env), old(moments)) ==> Barred(world, env, moments) && starts == old(starts)
      ensures which == 5 && old(env.now) >= old(holdUntil) && starts == old(starts) ==> env.paused || missing || env.cancelled
      ensures which == 6 && !old(env.present) ==> missing
      ensures Due(which, old(fsDue), old(retryDue), old(env.now)) ==>
                starts != old(starts) || retryDue.Some? || env.paused || missing || env.cancelled
    {
      if which == 3 && fsDue.Some? && fsDue.value <= env.now {
        OnFileTimer();
      } else if which == 4 && retryDue.Some? && retryDue.value <= env.now {
        OnRetryTimer();
      } else if which == 5 {
        busy := true;
        Request(false);
      } else if which == 6 {
        var _ := CheckExists();
      }
    }

    /**
     Any prefix of the scheduler's life, by the cases picked; true when it ended because the folder is
     gone. Unless the folder or the watcher goes first, every round is taken.
     */
    method Run(picks: seq<nat>) returns (gone: bool)
      requires Valid() && !busy && !missing
      modifies this
      ensures Valid() && !busy && (gone <==> missing && !env.cancelled)
      ensures old(moments) <= moments && old(trace) <= trace && old(starts) <= starts
      ensures Barred(world, old(env), old(moments)) ==> Barred(world, env, moments) && starts == old(starts)
      ensures missing || env.cancelled || moments >= old(moments) + |picks|
      ensures missing || (old(env.cancelled) && picks != [] && picks[0] == 0) ==> fsDue.None? && retryDue.None?
    {
      gone := false;
      var i := 0;
      while !missing && i < |picks|
        invariant Valid() && !busy && i <= |picks|
        invariant old(trace) <= trace && old(starts) <= starts && old(moments) + i <= moments
        invariant if i == 0 then env == old(env) else !(old(env.cancelled) && picks[0] == 0)
        invariant Barred(world, old(env), old(moments)) ==> Barred(world, env, moments) && starts == old(starts)
        decreases |picks| - i
      {
        var stop := Select(picks[i]);
        if stop {
          StopTimers();
          return;
        }
        i := i + 1;
      }
      if missing {
        StopTimers();
        gone := !env.cancelled;
      }
    }

    /** At the end of a run both timers are stopped. */
    method StopTimers()
      requires Sound() && (env.cancelled || missing)
      modifies `fsDue, `batching, `retryDue
      ensures Sound() && fsDue.None? && retryDue.None? && !batching
    {
      DisarmFS();
      retryDue := None;
    }

    /** A scheduler that has just taken over in a world that began in state `start`. */
    ghost predicate Newborn(start: Env)
      reads this
    {
      && Valid() && !busy && !missing && trace == [] && starts == [] && moments == firstMoment
      && born == start.now + TimeAt(world, firstMoment)
      && cancelledBefore == start.cancelled && goneBefore == !start.present
    }

    /** Where a scheduler's life has led, told by the start, the world and the moments that have passed. */
    ghost predicate Traced(start: Env)
      reads this
    {
      && env.now == start.now + TimeAt(world, moments)
      && env.cancelled == (start.cancelled || CancelledAt(world, moments))
      && (missing ==> !start.present || GoneAt(world, moments))
      && |trace| + StepsAt(world, firstMoment) == StepsAt(world, moments)
      && NeverLost(trace) && AllRespectHold(starts)
    }

    /** The whole life of a fresh scheduler; true when the folder went and a new one is to follow. */
    method Live(ghost start: Env, picks: seq<nat>) returns (again: bool)
      requires Newborn(start)
      modifies this
      ensures Valid() && Traced(start) && (again <==> missing && !env.cancelled)
      ensures missing || env.cancelled || moments >= firstMoment + |picks|
    {
      var gone := Run(picks);
      Interfere();
      again := gone && !env.cancelled;
    }
  }

  /** The logs of all schedulers up to this one's present moment. */
  ghost predicate LogsUpTo(s: Scheduler, trace: seq<View>, starts: seq<Start>)
    reads s`moments
  {
    NeverLost(trace) && AllRespectHold(starts) && |trace| == StepsAt(s.world, s.moments)
  }

  /** One scheduler's life, its logs appended to those of the ones before it. */
  method LiveOn(s: Scheduler, ghost start: Env, picks: seq<nat>, trace: seq<View>, starts: seq<Start>)
    returns (again: bool, traced: seq<View>, started: seq<Start>)
    requires s.Newborn(start) && LogsUpTo(s, trace, starts)
    modifies s
    ensures s.Valid() && s.Traced(start) && (again <==> s.missing && !s.env.cancelled) && (s.missing || s.env.cancelled || s.moments >= s.firstMoment + |picks|)
    ensures traced == trace + s.trace && started == starts + s.starts && LogsUpTo(s, traced, started)
    ensures EndsWith(traced, s.trace) && EndsWith(started, s.starts)
  {
    again := s.Live(start, picks);
    NeverLostConcat(trace, s.trace);
    AllRespectHoldConcat(starts, s.starts);
    ConcatEndsWith(trace, s.trace);
    ConcatEndsWith(starts, s.starts);
    traced, started := trace + s.trace, starts + s.starts;
  }

  /** The folder is back: stale triggers are dropped and a new scheduler starts with a sync. */
  method TakeOver(s: Scheduler, start: Env, batchWindow: nat, fsLag: nat, hasState: bool) returns (t: Scheduler)
    requires s.Traced(start)
    ensures fresh(t) && t.Newborn(start) && t.world == s.world && t.moments == s.moments
    ensures t.env == s.env.(present := true, trigger := 0) && t.retryDue == Some(t.env.now)
    ensures t.batchWindow == batchWindow && t.fsLag == fsLag && t.cooldown == 5 && t.limits == DefaultLimits && t.hasState == hasState
  {
    var env := s.env.(present := true, trigger := 0);
    t := new Scheduler(env, batchWindow, fsLag, 5, DefaultLimits, hasState, 0, s.world, s.moments, start.cancelled, !start.present);
  }

  /**
   The watch loop around the scheduler: when the folder disappears, a fresh scheduler with its
   initial sync armed takes over once it is back. The trace holds one state per step of the world,
   over all schedulers, up to where the last one ends; in none of them is an event lost, and every
   full sync that was not asked for respects the hold of its scheduler.
   */
  method WatchForChanges(start: Env, batchWindow: nat, fsLag: nat, initialDelay: nat, hasState: bool,
                         world: World, picks: seq<seq<nat>>)
    returns (s: Scheduler, lives: nat, trace: seq<View>, starts: seq<Start>)
    requires picks != []
    ensures fresh(s) && s.Valid() && s.world == world && 1 <= lives <= |picks|
    ensures lives == |picks| || !s.missing || s.env.cancelled
    ensures s.missing || s.env.cancelled || s.moments >= s.firstMoment + |picks[lives - 1]|
    ensures s.Traced(start) && LogsUpTo(s, trace, starts) && EndsWith(trace, s.trace) && EndsWith(starts, s.starts)
    ensures forall i :: 0 <= i < |trace| ==> NoEventLost(trace[i])
    ensures forall i :: 0 <= i < |starts| ==> RespectsHold(starts[i])
  {
    s := new Scheduler(start, batchWindow, fsLag, 5, DefaultLimits, hasState, initialDelay, world, 0, start.cancelled, !start.present);
    trace, starts, lives := [], [], 0;
    while true
      invariant fresh(s) && s.Newborn(start) && s.world == world && lives < |picks|
      invariant LogsUpTo(s, trace, starts)
      decreases |picks| - lives
    {
      var gone;
      gone, trace, starts := LiveOn(s, start, picks[lives], trace, starts);
      lives := lives + 1;
      if !gone || lives == |picks| {
        NeverLostMeans(trace);
        AllRespectHoldMeans(starts);
        return;
      }
      s := TakeOver(s, start, batchWindow, fsLag, hasState);
    }
  }

  /** A world in which at every moment a file changes and a second passes, and every sync fails. */
  function BusyWorld(): World {
    World(_ => [FileEvent, Tick(1)], _ => false)
  }

  lemma BusyWorldIsBusy()
    ensures Calm(BusyWorld()) && Eventful(BusyWorld())
    ensures forall i: nat :: Elapsed(BusyWorld().steps(i)) == 1
    ensures forall k: nat :: TimeAt(BusyWorld(), k) == k
  {
    var steps := [FileEvent, Tick(1)];
    assert steps[1..] == [Tick(1)] && steps[1..][1..] == [];
    assert Elapsed(steps) == 1;
    forall k: nat
      ensures TimeAt(BusyWorld(), k) == k
    {
      BusyTime(k);
    }
  }

  lemma {:induction false} BusyTime(k: nat)
    ensures TimeAt(BusyWorld(), k) == k
  {
    if k > 0 {
      BusyTime(k - 1);
      var steps := [FileEvent, Tick(1)];
      assert steps[1..] == [Tick(1)] && steps[1..][1..] == [];
      assert Elapsed(steps) == 1;
    }
  }

  /** A scheduler in the busy world that has just seen its n-th sync fail. */
  ghost predicate Failing(s: Scheduler, backoff: nat, n: nat)
    reads s
  {
    && s.Valid() && !s.busy && s.world == BusyWorld() && s.batchWindow == 1 && s.limits == DefaultLimits && s.hasState
    && s.firstMoment == 0 && s.born == 0 && s.JustFailed(backoff, n)
  }

  /** While the hold is at most two seconds, the batch window brings about the next sync, which fails as well. */
  method FailAgain(s: Scheduler, ghost backoff: nat, ghost n: nat)
    requires Failing(s, backoff, n) && backoff <= 2
    modifies s
    ensures Failing(s, backoff * 2, n + 1)
  {
    BusyWorldIsBusy();
    assert s.WillFail(s.env, n);
    var stop := s.Select(3);
  }

  /** With a longer hold the file event falls into it, and the retry comes late. */
  method RetryLate(s: Scheduler, ghost backoff: nat, ghost n: nat)
    requires Failing(s, backoff, n) && backoff > 2
    modifies s
    ensures s.Valid() && |s.starts| >= n && s.retryDue.Some? && s.retryDue.value > s.holdUntil
  {
    BusyWorldIsBusy();
    assert s.WillFail(s.env, n);
    var stop := s.Select(3);
  }

  /**
   A run with a late retry. Files keep changing and every sync fails, the initial one and the two that the
   batch window brings about. The hold is four seconds by then; the next file event falls into it and is
   committed locally, and the retry armed after that commit is due when the hold is already over.
   */
  method RetryIsLate() returns (s: Scheduler)
    ensures fresh(s) && s.Valid() && |s.starts| >= 3
    ensures s.retryDue.Some? && s.retryDue.value > s.holdUntil
  {
    s := FirstFailure();
    FailAgain(s, 1, 1);
    FailAgain(s, 2, 2);
    RetryLate(s, 4, 3);
  }

  method FirstFailure() returns (s: Scheduler)
    ensures fresh(s) && Failing(s, 1, 1)
  {
    BusyWorldIsBusy();
    var env := Env(0, 0, false, false, false, 0, true, false, OtherStatus, false);
    s := new Scheduler(env, 1, 0, 5, DefaultLimits, true, 0, BusyWorld(), 0, false, false);
    assert s.WillFail(s.env, 0);
    var stop := s.Select(4);
  }

  lemma {:induction false} ApplyAllAppend(e: Env, steps: seq<EnvStep>, step: EnvStep)
    ensures ApplyAll(e, steps + [step]) == Apply(ApplyAll(e, steps), step)
    decreases |steps|
  {
    if steps == [] {
      assert steps + [step] == [step];
      assert ApplyAll(e, [step]) == ApplyAll(Apply(e, step), []);
    } else {
      assert (steps + [step])[1..] == steps[1..] + [step];
      ApplyAllAppend(Apply(e, steps[0]), steps[1..], step);
    }
  }
}
