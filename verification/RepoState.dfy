/**
 The stored state of a repo as far as sync runs read and write it, its transitions, and how it is
 saved to a file and loaded again when the daemon restarts.
 */
module RepoStates {
  import opened Basics
  import opened GitModel

  datatype Status = Idle | Syncing | OK | Error | Conflicted | PreflightFailed | PausedStatus | OfflineStatus

  datatype RepoState = RepoState(
    status: Status, conflict: bool, conflictFiles: seq<string>,
    conflictHead: Option<Commit>, conflictUp: Option<Commit>, paused: bool
  )

  const FreshEntry := RepoState(Idle, false, [], None, None, false)

  // ---------- Transitions ----------

  function MarkSyncing(st: RepoState): RepoState {
    if st.paused then st else st.(status := Syncing)
  }

  function MarkSuccess(st: RepoState): RepoState {
    st.(status := OK, conflict := false, conflictFiles := [], conflictHead := None, conflictUp := None)
  }

  function MarkConflict(st: RepoState, files: seq<string>): RepoState {
    st.(status := Conflicted, conflict := true, conflictFiles := files)
  }

  function SetConflictRefs(st: RepoState, head: Option<Commit>, up: Option<Commit>): RepoState {
    st.(conflictHead := head, conflictUp := up)
  }

  function SetPaused(st: RepoState, paused: bool): RepoState {
    st.(paused := paused,
        status := if paused then PausedStatus else if st.status == PausedStatus then Idle else st.status)
  }

  /** Pause and resume commands that land while a run is under way. */
  function Commanded(st: RepoState, commands: seq<bool>): RepoState {
    if commands == [] then st else SetPaused(Commanded(st, commands[..|commands| - 1]), commands[|commands| - 1])
  }

  ghost predicate SameConflict(a: RepoState, b: RepoState) {
    && a.conflict == b.conflict && a.conflictFiles == b.conflictFiles
    && a.conflictHead == b.conflictHead && a.conflictUp == b.conflictUp
  }

  /** Commands leave a recorded conflict alone, and the last of them decides whether the repo is paused. */
  lemma {:induction false} CommandsKeepConflict(st: RepoState, commands: seq<bool>)
    ensures SameConflict(Commanded(st, commands), st)
    ensures Commanded(st, commands).paused == if commands == [] then st.paused else commands[|commands| - 1]
  {
    if commands != [] {
      CommandsKeepConflict(st, commands[..|commands| - 1]);
    }
  }

  /** What a cancelled run does to a status it set itself. */
  function Restored(st: RepoState, status: Status): RepoState {
    if st.status == Syncing then st.(status := status) else st
  }

  /** No write of a run pauses or resumes a repo, and a paused repo is not shown as syncing. */
  lemma RunsKeepPause(st: RepoState, files: seq<string>, head: Option<Commit>, up: Option<Commit>, status: Status)
    ensures MarkSyncing(st).paused == MarkSuccess(st).paused == MarkConflict(st, files).paused == st.paused
    ensures SetConflictRefs(st, head, up).paused == Restored(st, status).paused == st.paused
    ensures MarkSyncing(st).status == Syncing <==> !st.paused || st.status == Syncing
    ensures SameConflict(MarkSyncing(st), st) && SameConflict(Restored(st, status), st)
  {
  }

  /** A pause shows, and resuming takes it back whatever else the status was. */
  lemma ResumeUndoesPause(st: RepoState)
    ensures SetPaused(st, true).status == PausedStatus && SetPaused(st, true).paused
    ensures var back := SetPaused(SetPaused(st, true), false);
            back.status == Idle && !back.paused && SameConflict(back, st)
    ensures st.status != PausedStatus ==> SetPaused(st, false).status == st.status
  {
  }

  // ---------- Saving and loading ----------

  datatype Persisted = Persisted(
    paused: bool, conflict: bool, conflictFiles: seq<string>, conflictHead: Option<Commit>, conflictUp: Option<Commit>
  )

  /** The files of a conflict are written only with the conflict itself. */
  function Persist(st: RepoState): Persisted {
    Persisted(st.paused, st.conflict, if st.conflict then st.conflictFiles else [], st.conflictHead, st.conflictUp)
  }

  /** Loading over an entry: a recorded conflict is set, but one the entry already has is not cleared. */
  function LoadOver(entry: RepoState, saved: Persisted): RepoState {
    var st := entry.(paused := saved.paused, conflictHead := saved.conflictHead, conflictUp := saved.conflictUp);
    var st := if saved.conflict then MarkConflict(st, saved.conflictFiles) else st;
    if saved.paused then st.(status := PausedStatus) else st
  }

  function Restarted(st: RepoState): RepoState {
    LoadOver(FreshEntry, Persist(st))
  }

  /** Loading what was saved and saving again gives the same record, if and only if no older conflict stands in the way. */
  lemma LoadRestores(st: RepoState, entry: RepoState)
    ensures Persist(LoadOver(entry, Persist(st))) == Persist(st) <==> st.conflict || !entry.conflict
  {
  }

  /** One that does: the entry of a repo in conflict, and a record of it from before. */
  lemma OldConflictStands(files: seq<string>, head: Commit, up: Commit)
    ensures var entry := RepoState(Conflicted, true, files, Some(head), Some(up), false);
            && Persist(LoadOver(entry, Persist(FreshEntry))) != Persist(FreshEntry)
            && LoadOver(entry, Persist(FreshEntry)).conflict && !FreshEntry.conflict
  {
    LoadRestores(FreshEntry, RepoState(Conflicted, true, files, Some(head), Some(up), false));
  }

  /** The recorded conflict is on these refs and can be recognised again. */
  ghost predicate Armed(st: RepoState) {
    st.conflict && st.conflictHead.Some? && st.conflictUp.Some?
  }

  type Store = map<string, RepoState>

  datatype Saved = Saved(path: string, state: Persisted)

  /** The file lists every entry of the store exactly once, in whatever order. */
  ghost predicate Lists(file: seq<Saved>, store: Store) {
    && (forall i :: 0 <= i < |file| ==> file[i].path in store && file[i].state == Persist(store[file[i].path]))
    && (forall i, j :: 0 <= i < j < |file| ==> file[i].path != file[j].path)
    && (forall p :: p in store ==> exists i :: 0 <= i < |file| && file[i].path == p)
  }

  /** Saves the store, one entry after another. */
  method MarshalPersisted(store: Store) returns (file: seq<Saved>)
    ensures Lists(file, store)
  {
    file := [];
    var todo := store.Keys;
    while todo != {}
      invariant todo <= store.Keys
      invariant forall i :: 0 <= i < |file| ==>
                  file[i].path in store && file[i].path !in todo && file[i].state == Persist(store[file[i].path])
      invariant forall i, j :: 0 <= i < j < |file| ==> file[i].path != file[j].path
      invariant forall p :: p in store && p !in todo ==> exists i :: 0 <= i < |file| && file[i].path == p
      decreases |todo|
    {
      var p :| p in todo;
      todo := todo - {p};
      ghost var before := file;
      file := file + [Saved(p, Persist(store[p]))];
      assert file[|before|].path == p;
      assert forall i :: 0 <= i < |before| ==> file[i] == before[i];
    }
  }

  /** Entries without a path, and those the configuration no longer names, are skipped. */
  function LoadAll(store: Store, file: seq<Saved>, keep: string -> bool): Store {
    if file == [] then store
    else
      var before, last := LoadAll(store, file[..|file| - 1], keep), file[|file| - 1];
      if last.path == "" || !keep(last.path) then before
      else before[last.path := LoadOver(if last.path in before then before[last.path] else FreshEntry, last.state)]
  }

  method LoadPersisted(store: Store, file: seq<Saved>, keep: string -> bool) returns (loaded: Store)
    ensures loaded == LoadAll(store, file, keep)
  {
    loaded := store;
    for i := 0 to |file|
      invariant loaded == LoadAll(store, file[..i], keep)
    {
      assert file[..i + 1][..i] == file[..i];
      var p := file[i].path;
      if p == "" || !keep(p) {
        continue;
      }
      var entry := if p in loaded then loaded[p] else FreshEntry;
      loaded := loaded[p := LoadOver(entry, file[i].state)];
    }
    assert file[..|file|] == file;
  }

  lemma {:induction false} LoadAllElsewhere(store: Store, file: seq<Saved>, keep: string -> bool, p: string)
    requires p == "" || !keep(p) || forall i :: 0 <= i < |file| ==> file[i].path != p
    ensures p in LoadAll(store, file, keep) <==> p in store
    ensures p in store ==> LoadAll(store, file, keep)[p] == store[p]
  {
    if file != [] {
      LoadAllElsewhere(store, file[..|file| - 1], keep, p);
    }
  }

  lemma {:induction false} LoadAllAt(store: Store, file: seq<Saved>, keep: string -> bool, k: nat)
    requires k < |file| && file[k].path != "" && keep(file[k].path)
    requires forall i, j :: 0 <= i < j < |file| ==> file[i].path != file[j].path
    ensures var p := file[k].path;
            && p in LoadAll(store, file, keep)
            && LoadAll(store, file, keep)[p] == LoadOver(if p in store then store[p] else FreshEntry, file[k].state)
  {
    var before := file[..|file| - 1];
    if k < |before| {
      LoadAllAt(store, before, keep, k);
    } else {
      LoadAllElsewhere(store, before, keep, file[k].path);
    }
  }

  /**
   A restart of the daemon: the configured repos get fresh entries and the file is loaded over them.
   Whatever was stored for a configured repo, its conflict with both refs and its pause are back, a
   conflict that could be recognised still can be, and the next save writes the same record. A repo
   that is no longer configured gets no entry.
   */
  lemma RestartRestores(store: Store, file: seq<Saved>, configured: set<string>, p: string)
    requires Lists(file, store) && "" !in configured
    ensures var entries: Store := map q <- configured :: FreshEntry;
            var loaded := LoadAll(entries, file, q => q in configured);
            && loaded.Keys == configured
            && (p in configured && p in store ==>
                  && loaded[p] == Restarted(store[p]) && Persist(loaded[p]) == Persist(store[p])
                  && loaded[p].paused == store[p].paused && loaded[p].conflict == store[p].conflict
                  && loaded[p].conflictHead == store[p].conflictHead && loaded[p].conflictUp == store[p].conflictUp
                  && (store[p].conflict ==> loaded[p].conflictFiles == store[p].conflictFiles)
                  && loaded[p].status == (if store[p].paused then PausedStatus else if store[p].conflict then Conflicted else Idle)
                  && (Armed(loaded[p]) <==> Armed(store[p])))
            && (p in configured && p !in store ==> loaded[p] == FreshEntry)
  {
    var entries: Store := map q <- configured :: FreshEntry;
    var keep := (q: string) => q in configured;
    forall q
      ensures q in LoadAll(entries, file, keep) <==> q in configured
      ensures q in configured && q in store ==> LoadAll(entries, file, keep)[q] == Restarted(store[q])
      ensures q in configured && q !in store ==> LoadAll(entries, file, keep)[q] == FreshEntry
    {
      if q in store && q in configured {
        var k :| 0 <= k < |file| && file[k].path == q;
        LoadAllAt(entries, file, keep, k);
      } else {
        LoadAllElsewhere(entries, file, keep, q);
      }
    }
    if p in store {
      LoadRestores(store[p], FreshEntry);
    }
  }
}
