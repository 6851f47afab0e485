/**
 The daemon's lock-protected operations on watchers, as code that updates its maps in
 place, proved against the atomic steps of the watcher protocol.
 */
module DaemonWatchers {
  import opened Basics
  import opened WatcherProtocol

  // ---------- Duplicate repos ----------

  /** No two entries of `repos` resolve to the same folder. */
  ghost predicate DistinctFolders(resolve: Path -> Path, repos: seq<Path>) {
    forall i, j :: 0 <= i < j < |repos| ==> resolve(repos[i]) != resolve(repos[j])
  }

  /** The entries that are the first to name their folder. */
  function FirstNames(resolve: Path -> Path, repos: seq<Path>): seq<Path> {
    if repos == [] then []
    else
      var before, last := repos[..|repos| - 1], repos[|repos| - 1];
      if exists i :: 0 <= i < |before| && resolve(before[i]) == resolve(last) then FirstNames(resolve, before)
      else FirstNames(resolve, before) + [last]
  }

  method UniqueRepos(resolve: Path -> Path, repos: seq<Path>) returns (out: seq<Path>)
    ensures out == FirstNames(resolve, repos)
    ensures DistinctFolders(resolve, out)
    ensures forall rp :: rp in repos ==> exists k :: 0 <= k < |out| && resolve(out[k]) == resolve(rp)
    ensures forall rp :: rp in out ==> rp in repos
  {
    out := [];
    var seen: map<Path, Path> := map[];
    for i := 0 to |repos|
      invariant out == FirstNames(resolve, repos[..i])
      invariant DistinctFolders(resolve, out)
      invariant forall k :: 0 <= k < |out| ==> resolve(out[k]) in seen
      invariant forall key :: key in seen ==> resolve(seen[key]) == key && seen[key] in repos[..i] && seen[key] in out
      invariant forall k :: 0 <= k < i ==> resolve(repos[k]) in seen
      invariant forall rp :: rp in out ==> rp in repos
    {
      var rp := repos[i];
      var key := resolve(rp);
      assert repos[..i + 1][..i] == repos[..i];
      assert key in seen ==> exists k :: 0 <= k < i && repos[..i][k] == seen[key];
      if key in seen {
        continue;
      }
      seen := seen[key := rp];
      out := out + [rp];
    }
    assert repos[..|repos|] == repos;
    forall rp | rp in repos
      ensures exists k :: 0 <= k < |out| && resolve(out[k]) == resolve(rp)
    {
      assert seen[resolve(rp)] in out;
    }
  }

  // ---------- The daemon ----------

  class Daemon {
    var handles: seq<Handle>
    var watchers: map<Path, nat>
    var stopping: map<Path, nat>
    var cleanups: set<nat>
    var forgets: set<nat>
    var entries: set<Path>
    var adding: set<Path>
    var envs: seq<string>
    var stopped: bool
    /** The paths that have a sync lock. */
    var syncLocks: set<Path>

    ghost function View(): State
      reads this
    {
      State(handles, watchers, stopping, cleanups, forgets, entries, adding)
    }

    constructor ()
      ensures View() == Initial && !stopped && envs == [] && syncLocks == {}
    {
      handles, watchers, stopping, cleanups, forgets, entries, adding := [], map[], map[], {}, {}, {}, {};
      envs, stopped, syncLocks := [], false, {};
    }

    method StartWatcherLocked(p: Path)
      requires p !in watchers
      modifies `handles, `watchers, `stopping, `cleanups, `forgets, `entries, `adding
      ensures View() == Start(old(View()), p)
    {
      entries := entries + {p};
      adding := adding - {p};
      var prev := None;
      if p in stopping {
        prev := Some(stopping[p]);
      }
      stopping := stopping - {p};
      watchers := watchers[p := |handles|];
      handles := handles + [Handle(p, prev, false, Waiting)];
    }

    /** Cancels the path's watcher and leaves its `done` channel for the next one; nothing happens without a watcher. */
    method StopWatcherLocked(p: Path) returns (h: Option<nat>)
      requires p in watchers ==> watchers[p] < |handles|
      modifies `handles, `watchers, `stopping, `cleanups, `forgets, `entries, `adding
      ensures p in old(watchers) ==> View() == Stop(old(View()), p) && h == Some(old(watchers[p]))
      ensures p !in old(watchers) ==> View() == old(View()) && h == None
    {
      if p !in watchers {
        return None;
      }
      var id := watchers[p];
      handles := handles[id := handles[id].(cancelled := true)];
      watchers := watchers - {p};
      stopping := stopping[p := id];
      cleanups := cleanups + {id};
      return Some(id);
    }

    method RestartWatcher(p: Path)
      requires Safe(View())
      modifies `handles, `watchers, `stopping, `cleanups, `forgets, `entries, `adding
      ensures Safe(View())
      ensures View() == if p in old(watchers) && !stopped then Restart(old(View()), p) else old(View())
    {
      if stopped || p !in watchers {
        return;
      }
      RestartKeepsSafe(View(), p);
      var _ := StopWatcherLocked(p);
      StartWatcherLocked(p);
    }

    /** The clean-up goroutine of a stop, running once the handle's channel is closed. */
    method CleanUpStopping(h: nat)
      requires Safe(View()) && Enabled(View(), ACleanup(h))
      modifies `handles, `watchers, `stopping, `cleanups, `forgets, `entries, `adding
      ensures Safe(View()) && View() == Cleanup(old(View()), h)
    {
      CleanupKeepsSafe(View(), h);
      var p := handles[h].path;
      if p in stopping && stopping[p] == h {
        stopping := stopping - {p};
      }
      cleanups := cleanups - {h};
    }

    /** The goroutine of a removal, running once the handle's channel is closed. */
    method ForgetWhenStopped(h: nat)
      requires Safe(View()) && Enabled(View(), AForget(h))
      modifies this
      ensures Safe(View()) && View() == Forget(old(View()), h)
      ensures syncLocks == if handles[h].path in watchers then old(syncLocks) else old(syncLocks) - {handles[h].path}
      ensures envs == old(envs) && stopped == old(stopped)
    {
      ForgetKeepsSafe(View(), h);
      forgets := forgets - {h};
      var p := handles[h].path;
      if p in watchers {
        return;
      }
      entries := entries - {p};
      syncLocks := syncLocks - {p};
    }

    ghost predicate IdsValid()
      reads `watchers, `handles
    {
      forall p :: p in watchers ==> watchers[p] < |handles|
    }

    /** Starts a watcher for each listed repo that has none. */
    method StartMissing(repos: seq<Path>) returns (ghost actions: seq<Action>)
      modifies `handles, `watchers, `stopping, `cleanups, `forgets, `entries, `adding
      ensures Runs(old(View()), actions, View())
      ensures forgets == old(forgets)
      ensures watchers.Keys == old(watchers.Keys) + set rp | rp in repos
      ensures forall p :: p in old(watchers) ==> watchers[p] == old(watchers[p])
    {
      actions := [];
      for i := 0 to |repos|
        invariant Runs(old(View()), actions, View())
        invariant forgets == old(forgets)
        invariant watchers.Keys == old(watchers.Keys) + set rp | rp in repos[..i]
        invariant forall p :: p in old(watchers) ==> watchers[p] == old(watchers[p])
      {
        var rp := repos[i];
        assert repos[..i + 1] == repos[..i] + [rp];
        if rp !in watchers {
          Extend(old(View()), actions, View(), AStart(rp));
          actions := actions + [AStart(rp)];
          StartWatcherLocked(rp);
        }
      }
      assert repos[..|repos|] == repos;
    }

    /** Drops one repo: its watcher is stopped, its state removed, and a forget spawned. */
    method RemoveLocked(p: Path)
      requires p in watchers && watchers[p] < |handles|
      modifies `handles, `watchers, `stopping, `cleanups, `forgets, `entries, `adding
      ensures View() == Remove(old(View()), p)
    {
      var h := StopWatcherLocked(p);
      entries := entries - {p};
      adding := adding - {p};
      forgets := forgets + {h.value};
    }

    /** The first pass of a reconcile: drops unwanted watchers and lists the ones to restart. */
    method RemoveUnwanted(desired: set<Path>, envsChanged: bool) returns (restart: seq<Path>, ghost actions: seq<Action>)
      requires IdsValid()
      modifies `handles, `watchers, `stopping, `cleanups, `forgets, `entries, `adding
      ensures IdsValid() && Runs(old(View()), actions, View())
      ensures |handles| == |old(handles)|
      ensures forall p :: p in watchers <==> p in old(watchers) && p in desired
      ensures forall p :: p in watchers ==> watchers[p] == old(watchers)[p]
      ensures forall p :: p in old(watchers) && p !in desired ==> old(watchers)[p] in forgets
      ensures forall p :: p in restart <==> envsChanged && p in watchers
      ensures NoRepeats(restart)
    {
      restart, actions := [], [];
      var todo := watchers.Keys;
      while todo != {}
        invariant IdsValid() && Runs(old(View()), actions, View())
        invariant |handles| == |old(handles)|
        invariant forall p :: p in todo ==> p in old(watchers)
        invariant forall p :: p in watchers <==> p in old(watchers) && (p in desired || p in todo)
        invariant forall p :: p in watchers ==> watchers[p] == old(watchers)[p]
        invariant forall p :: p in old(watchers) && p !in watchers ==> old(watchers)[p] in forgets
        invariant forall p :: p in restart <==> envsChanged && p in watchers && p !in todo
        invariant NoRepeats(restart)
        decreases |todo|
      {
        var rp :| rp in todo;
        todo := todo - {rp};
        if rp in desired {
          if envsChanged {
            restart := restart + [rp];
          }
        } else {
          Extend(old(View()), actions, View(), ARemove(rp));
          actions := actions + [ARemove(rp)];
          RemoveLocked(rp);
        }
      }
    }

    /** The second pass: every listed watcher is replaced by a fresh one. */
    method RestartAll(restart: seq<Path>) returns (ghost actions: seq<Action>)
      requires IdsValid() && forall p :: p in restart ==> p in watchers
      requires NoRepeats(restart)
      modifies `handles, `watchers, `stopping, `cleanups, `forgets, `entries, `adding
      ensures IdsValid() && Runs(old(View()), actions, View())
      ensures forgets == old(forgets)
      ensures watchers.Keys == old(watchers).Keys
      ensures forall p :: p in watchers ==>
                if p in restart then watchers[p] >= |old(handles)| else watchers[p] == old(watchers)[p]
    {
      actions := [];
      for i := 0 to |restart|
        invariant IdsValid() && Runs(old(View()), actions, View())
        invariant forgets == old(forgets)
        invariant watchers.Keys == old(watchers).Keys && |old(handles)| <= |handles|
        invariant forall p :: p in watchers ==>
                    if p in restart[..i] then watchers[p] >= |old(handles)| else watchers[p] == old(watchers)[p]
      {
        var rp := restart[i];
        assert restart[..i + 1] == restart[..i] + [rp];
        Extend(old(View()), actions, View(), ARestart(rp));
        actions := actions + [ARestart(rp)];
        var _ := StopWatcherLocked(rp);
        StartWatcherLocked(rp);
      }
      assert restart[..|restart|] == restart;
    }

    method StartWatchers(resolve: Path -> Path, configured: seq<Path>, newEnvs: seq<string>)
      returns (ghost actions: seq<Action>)
      requires Safe(View())
      modifies this
      ensures Safe(View()) && Runs(old(View()), actions, View())
      ensures envs == newEnvs && syncLocks == old(syncLocks)
      ensures watchers.Keys == old(watchers.Keys) + set rp | rp in FirstNames(resolve, configured)
      ensures forall p :: p in old(watchers) ==> watchers[p] == old(watchers[p])
    {
      var repos := UniqueRepos(resolve, configured);
      envs := newEnvs;
      actions := StartMissing(repos);
      RunsKeepSafe(old(View()), actions, View());
    }

    /** The three passes of a reconcile over repos already free of duplicates. */
    method ReconcileLocked(repos: seq<Path>, envsChanged: bool) returns (ghost actions: seq<Action>)
      requires IdsValid()
      modifies `handles, `watchers, `stopping, `cleanups, `forgets, `entries, `adding
      ensures Runs(old(View()), actions, View())
      ensures watchers.Keys == set rp | rp in repos
      ensures forall p :: p in old(watchers) && p in watchers ==>
                if envsChanged then watchers[p] >= |old(handles)| else watchers[p] == old(watchers)[p]
      ensures forall p :: p in old(watchers) && p !in watchers ==> old(watchers)[p] in forgets
    {
      var desired := set rp | rp in repos;
      var restart, removed := RemoveUnwanted(desired, envsChanged);
      ghost var s1 := View();
      ghost var restarted := RestartAll(restart);
      RunsConcat(old(View()), removed, s1, restarted, View());
      ghost var s2 := View();
      ghost var started := StartMissing(repos);
      RunsConcat(old(View()), removed + restarted, s2, started, View());
      actions := removed + restarted + started;
    }

    /**
     Brings the watchers in line with a configuration, in one locked region: afterwards exactly
     the configured repos are watched; a repo that stays keeps its watcher unless the environment
     changed; a dropped repo has a forget waiting for its last watcher.
     */
    method ReconcileWatchers(resolve: Path -> Path, configured: seq<Path>, newEnvs: seq<string>)
      returns (ghost actions: seq<Action>)
      requires Safe(View())
      modifies this
      ensures stopped == old(stopped) && syncLocks == old(syncLocks)
      ensures stopped ==> View() == old(View()) && envs == old(envs)
      ensures !stopped ==>
                && Safe(View()) && Runs(old(View()), actions, View()) && envs == newEnvs
                && watchers.Keys == set rp | rp in FirstNames(resolve, configured)
      ensures !stopped ==> forall p :: p in old(watchers) && p in watchers ==>
                if old(envs) == newEnvs then watchers[p] == old(watchers)[p] else watchers[p] >= |old(handles)|
      ensures !stopped ==> forall p :: p in old(watchers) && p !in watchers ==> old(watchers)[p] in forgets
      ensures !stopped ==> forall p, q :: p in watchers && q in watchers && resolve(p) == resolve(q) ==> p == q
    {
      actions := [];
      if stopped {
        return;
      }
      var repos := UniqueRepos(resolve, configured);
      var envsChanged := envs != newEnvs;
      envs := newEnvs;
      actions := ReconcileLocked(repos, envsChanged);
      RunsKeepSafe(old(View()), actions, View());
      DistinctNames(resolve, repos);
    }
  }

  lemma DistinctNames(resolve: Path -> Path, repos: seq<Path>)
    requires DistinctFolders(resolve, repos)
    ensures forall p, q :: p in repos && q in repos && resolve(p) == resolve(q) ==> p == q
  {
  }

  ghost predicate NoRepeats(s: seq<Path>) {
    forall i, j :: 0 <= i < j < |s| ==> s[i] != s[j]
  }

  lemma Extend(s: State, actions: seq<Action>, t: State, a: Action)
    requires Runs(s, actions, t) && Enabled(t, a)
    ensures Runs(s, actions + [a], Next(t, a))
  {
    OneStep(t, a, Next(t, a), [], Next(t, a));
    assert [a] + [] == [a];
    RunsConcat(s, actions, t, [a], Next(t, a));
  }
}
