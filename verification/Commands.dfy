/**
 The commands that act on a running watcher from outside: ask for a sync, pause and resume. They
 share three things with the scheduler, and what they do to them is what the scheduler's
 environment steps say.
 */
module WatcherCommands {
  import opened Basics
  import opened SyncScheduling

  datatype Refusal = IsPaused | FolderMissing

  class WatcherHandle {
    var paused: bool
    var force: bool
    /** The one place in the channel of explicit requests. */
    var immediate: bool
    /** Whether the store shows the repo as paused, and the pause and resume events emitted. */
    var shownPaused: bool
    var pauses: nat
    var resumes: nat

    constructor ()
      ensures !paused && !force && !immediate && !shownPaused && pauses == resumes == 0
    {
      paused, force, immediate, shownPaused, pauses, resumes := false, false, false, false, 0, 0;
    }

    /** The scheduler's environment with what the handle holds. */
    function Seen(e: Env): Env
      reads this
    {
      e.(paused := paused, force := force, immediate := immediate)
    }

    /** Never blocks: a request that is waiting already stands for this one too. */
    method Kick()
      modifies this`immediate
      ensures immediate
    {
      if !immediate {
        immediate := true;
      }
    }

    /** The force flag is set before the request, so that the sync that takes the request finds it. */
    method SyncNow(forced: bool, missing: bool) returns (refused: Option<Refusal>)
      modifies this`force, this`immediate
      ensures refused == if paused then Some(IsPaused) else if missing then Some(FolderMissing) else None
      ensures forall e :: Seen(e) == ApplyAll(old(Seen(e)), if refused.Some? then [] else (if forced then [AskForce] else []) + [Nudge])
    {
      if paused {
        return Some(IsPaused);
      }
      if missing {
        return Some(FolderMissing);
      }
      if forced {
        force := true;
      }
      Kick();
      forall e
        ensures Seen(e) == ApplyAll(old(Seen(e)), (if forced then [AskForce] else []) + [Nudge])
      {
        StepsOneByOne(old(Seen(e)), AskForce, Nudge);
        assert [] + [Nudge] == [Nudge] && [AskForce] + [Nudge] == [AskForce, Nudge];
      }
      return None;
    }

    /** The flag first, then the shown state; only a change is announced, and only a lifted pause kicks. */
    method SetPaused(pause: bool)
      modifies this`paused, this`immediate, this`shownPaused, this`pauses, this`resumes
      ensures paused == shownPaused == pause
      ensures pauses == old(pauses) + (if pause && !old(paused) then 1 else 0)
      ensures resumes == old(resumes) + (if !pause && old(paused) then 1 else 0)
      ensures forall e :: Seen(e) == ApplyAll(old(Seen(e)), if pause then [Pause] else if old(paused) then [Resume, DeliverKick] else [])
    {
      var was := paused;
      paused := pause;
      shownPaused := pause;
      if was != pause {
        if pause {
          pauses := pauses + 1;
        } else {
          resumes := resumes + 1;
          Kick();
        }
      }
      forall e
        ensures Seen(e) == ApplyAll(old(Seen(e)), if pause then [Pause] else if old(paused) then [Resume, DeliverKick] else [])
      {
        StepsOneByOne(old(Seen(e)), Resume, DeliverKick);
        StepsOneByOne(old(Seen(e)), Pause, Nudge);
      }
    }
  }

  lemma StepsOneByOne(e: Env, a: EnvStep, b: EnvStep)
    ensures ApplyAll(e, []) == e && ApplyAll(e, [a]) == Apply(e, a) && ApplyAll(e, [b]) == Apply(e, b)
    ensures ApplyAll(e, [a, b]) == Apply(Apply(e, a), b)
  {
    assert [a][1..] == [] && [b][1..] == [] && [a, b][1..] == [b];
    assert ApplyAll(e, [a]) == ApplyAll(Apply(e, a), []);
    assert ApplyAll(e, [b]) == ApplyAll(Apply(e, b), []);
    assert ApplyAll(e, [a, b]) == ApplyAll(Apply(e, a), [b]) == ApplyAll(Apply(Apply(e, a), b), []);
  }

  /**
   A forced request is carried out as one: the scheduler that takes it starts a forced full sync, whatever
   is held, unless the repo is paused or missing or the watcher cancelled by then.
   */
  method ForcedRequestIsCarriedOut(h: WatcherHandle, s: Scheduler) returns (refused: Option<Refusal>)
    requires s.Valid() && !s.busy && !s.missing && s.env == h.Seen(s.env) && !h.paused
    modifies h, s
    ensures refused.None? && s.Valid()
    ensures s.starts != old(s.starts) ==>
              exists at, hold :: |s.starts| == |old(s.starts)| + 1 && s.starts[|old(s.starts)|] == Start(true, true, true, at, hold)
    ensures s.starts == old(s.starts) ==> s.env.paused || s.missing || s.env.cancelled
  {
    refused := h.SyncNow(true, false);
    StepsOneByOne(old(s.env), AskForce, Nudge);
    assert [AskForce] + [Nudge] == [AskForce, Nudge];
    assert h.Seen(old(s.env)) == ApplyAll(old(s.env), [AskForce, Nudge]);
    AnyInterferenceIsRely(old(s.env), [AskForce, Nudge]);
    s.env := h.Seen(s.env);
    var force := s.OnImmediate();
    assert force;
    if s.starts != old(s.starts) {
      var start := s.starts[|old(s.starts)|];
      assert start == Start(true, true, true, start.at, start.hold);
    }
  }
}
