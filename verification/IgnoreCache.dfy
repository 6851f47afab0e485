/**
 The cache in front of `git check-ignore`. A path counts as ignored when git ignores it or
 one of its directories. The cache keeps answers about directories and about paths for a
 minute, asks only for what it lacks, and may be emptied at any time. A path's cached answer
 says nothing about its directories, yet it is trusted on its own.
 */
module IgnoreCache {
  import opened Basics

  /** A path inside the repo, by components; the repo itself is the empty path. */
  type RelPath = seq<string>

  /** A directory is asked about with a trailing slash, so the two kinds never meet. */
  datatype Key = Dir(path: RelPath) | File(path: RelPath)

  datatype Entry = Entry(ignored: bool, at: nat)

  datatype Lookup = Hit(ignored: bool) | Miss(dirs: seq<Key>)

  datatype Result = Answer(ignored: bool) | Failed

  const TTL: nat := 60_000
  const MaxEntries: nat := 4096

  // ---------- The simple form ----------

  predicate AncestorIgnored(git: Key -> bool, path: RelPath, depth: nat)
    requires depth <= |path|
  {
    depth > 0 && (AncestorIgnored(git, path, depth - 1) || (depth < |path| && git(Dir(path[..depth]))))
  }

  /** Git ignores the path or a directory it lies in. */
  predicate Ignored(git: Key -> bool, path: RelPath) {
    git(File(path)) || AncestorIgnored(git, path, |path|)
  }

  lemma {:induction false} AncestorMeans(git: Key -> bool, path: RelPath, depth: nat)
    requires depth <= |path|
    ensures AncestorIgnored(git, path, depth) <==> exists n :: 1 <= n <= depth && n < |path| && git(Dir(path[..n]))
  {
    if depth > 0 {
      AncestorMeans(git, path, depth - 1);
    }
  }

  // ---------- What keeps a lone answer trustworthy ----------

  /** If git ignores the directory at depth `n`, the cache knows it for at least as long as the path. */
  ghost predicate BackedAt(git: Key -> bool, entries: map<Key, Entry>, path: RelPath, at: nat, n: int) {
    1 <= n < |path| && git(Dir(path[..n])) ==>
      Dir(path[..n]) in entries && entries[Dir(path[..n])].at >= at
  }

  ghost predicate Backed(git: Key -> bool, entries: map<Key, Entry>, path: RelPath, at: nat) {
    forall n :: BackedAt(git, entries, path, at, n)
  }

  ghost predicate EntryOk(git: Key -> bool, entries: map<Key, Entry>, clock: nat, k: Key) {
    k in entries ==>
      && entries[k].ignored == git(k) && entries[k].at <= clock
      && (k.File? ==> Backed(git, entries, k.path, entries[k].at))
  }

  ghost predicate Sound(git: Key -> bool, entries: map<Key, Entry>, clock: nat) {
    forall k :: EntryOk(git, entries, clock, k)
  }

  lemma SoundLater(git: Key -> bool, entries: map<Key, Entry>, clock: nat, now: nat)
    requires Sound(git, entries, clock) && clock <= now
    ensures Sound(git, entries, now)
  {
    forall k
      ensures EntryOk(git, entries, now, k)
    {
      assert EntryOk(git, entries, clock, k);
    }
  }

  /** Recording a newer answer never takes the backing of another path away. */
  lemma RecordKeepsSound(git: Key -> bool, entries: map<Key, Entry>, clock: nat, now: nat, key: Key)
    requires Sound(git, entries, clock) && clock <= now
    requires key.File? ==> Backed(git, entries, key.path, now)
    ensures Sound(git, entries[key := Entry(git(key), now)], now)
  {
    var entries' := entries[key := Entry(git(key), now)];
    forall k
      ensures EntryOk(git, entries', now, k)
    {
      assert EntryOk(git, entries, clock, k);
      if k in entries' && k.File? {
        RecordKeepsBacked(git, entries, clock, now, key, k.path, entries'[k].at);
      }
    }
  }

  lemma RecordKeepsBacked(git: Key -> bool, entries: map<Key, Entry>, clock: nat, now: nat, key: Key, path: RelPath, at: nat)
    requires Backed(git, entries, path, at) && at <= now
    ensures Backed(git, entries[key := Entry(git(key), now)], path, at)
  {
    var entries' := entries[key := Entry(git(key), now)];
    forall n
      ensures BackedAt(git, entries', path, at, n)
    {
      assert BackedAt(git, entries, path, at, n);
    }
  }

  // ---------- The cache of one repo ----------

  class RepoIgnoreCache {
    var entries: map<Key, Entry>
    /** What git would answer now, and the time of the latest call. */
    var git: Key -> bool
    var clock: nat
    /** How often git has been asked. */
    var asked: nat

    ghost predicate Valid()
      reads this
    {
      Sound(git, entries, clock)
    }

    constructor (git: Key -> bool)
      ensures Valid() && this.git == git && entries == map[] && clock == 0 && asked == 0
    {
      entries, this.git, clock, asked := map[], git, 0, 0;
    }

    /** The ignore rules changed: whatever they are now, an empty cache is sound. */
    method Invalidate(rules: Key -> bool)
      modifies this`entries, this`git
      ensures Valid() && git == rules && entries == map[]
    {
      entries, git := map[], rules;
    }

    /** Answers from the cache where that is safe, else says which directories to ask about. */
    method LookUp(path: RelPath, now: nat) returns (r: Lookup)
      requires Valid() && clock <= now
      ensures r.Hit? ==> r.ignored == Ignored(git, path)
      ensures r.Hit? ==> Live(entries, File(path), now) || exists n :: 1 <= n < |path| && Live(entries, Dir(path[..n]), now)
      ensures r.Miss? ==> |r.dirs| <= |path| && AsksOnly(r.dirs, path) && Covers(git, r.dirs, path, |path|)
      ensures r.Miss? ==> !Live(entries, File(path), now) && forall d <- r.dirs :: !Live(entries, d, now)
    {
      var dirs: seq<Key> := [];
      var n := 1;
      while n < |path|
        invariant 1 <= n && (n <= |path| || n == 1) && |dirs| < n
        invariant AsksOnly(dirs, path) && Covers(git, dirs, path, n)
        invariant forall d <- dirs :: !Live(entries, d, now)
        invariant NoneLive(git, entries, path, now, n)
      {
        var dir := Dir(path[..n]);
        assert EntryOk(git, entries, clock, dir);
        if Live(entries, dir, now) && entries[dir].ignored {
          AncestorMeans(git, path, |path|);
          return Hit(true);
        }
        CoversOneMore(git, dirs, path, n, Live(entries, dir, now));
        NoneLiveOneMore(git, entries, path, now, n);
        if !Live(entries, dir, now) {
          dirs := dirs + [dir];
        }
        n := n + 1;
      }
      if Live(entries, File(path), now) {
        LoneAnswerIsRight(git, entries, clock, path, now);
        return Hit(entries[File(path)].ignored);
      }
      assert Covers(git, dirs, path, |path|) by {
        forall m
          ensures CoversAt(git, dirs, path, |path|, m)
        {
          assert CoversAt(git, dirs, path, n, m);
        }
      }
      return Miss(dirs);
    }

    /** git check-ignore: the keys it ignores, or a failure. */
    method CheckIgnore(query: seq<Key>, fails: bool) returns (ignored: set<Key>, ok: bool)
      ensures ok == !fails && (ok ==> forall k :: k in ignored <==> k in query && git(k))
    {
      return set k | k in query && git(k), !fails;
    }

    /** Records the answers, directories before the path they back. */
    method Store(path: RelPath, dirs: seq<Key>, ignored: set<Key>, now: nat) returns (result: bool)
      requires Valid() && clock <= now
      requires AsksOnly(dirs, path) && Covers(git, dirs, path, |path|)
      requires forall k :: k in ignored <==> k in dirs + [File(path)] && git(k)
      modifies this`entries, this`clock
      ensures Valid() && clock == now
      ensures result == Ignored(git, path)
      ensures |entries| <= 4096 || |entries| <= |dirs| + 1
      ensures |old(entries)| + |dirs| + 1 <= 4096 ==> forall k :: k in old(entries) ==> k in entries
      ensures File(path) in entries && entries[File(path)].at == now
    {
      var query := dirs + [File(path)];
      if |entries| + |query| > MaxEntries {
        entries := map[];
      }
      result := false;
      SoundLater(git, entries, clock, now);
      clock := now;
      ghost var size := |entries|;
      for i := 0 to |query|
        invariant clock == now && Sound(git, entries, now) && |entries| <= size + i
        invariant AllRecorded(git, entries, query[..i], now)
        invariant result <==> SomeIgnored(git, query[..i])
        invariant |old(entries)| + |query| <= 4096 ==> forall k :: k in old(entries) ==> k in entries
      {
        if i == |dirs| {
          assert query[..i] == dirs;
          AnswersBack(git, entries, dirs, path, now);
        }
        assert query[..i + 1] == query[..i] + [query[i]];
        Record(query[..i], query[i], query[i] in ignored, now);
        if query[i] in ignored {
          result := true;
        }
      }
      assert query[..|query|] == query;
      assert Recorded(git, entries, File(path), now) by { assert File(path) in query; }
      QueryAnswers(git, dirs, path);
    }

    /** Records one answer more. */
    method Record(ghost before: seq<Key>, key: Key, ignored: bool, now: nat)
      requires Sound(git, entries, now) && AllRecorded(git, entries, before, now) && ignored == git(key)
      requires key.File? ==> Backed(git, entries, key.path, now)
      modifies this`entries
      ensures Sound(git, entries, now) && AllRecorded(git, entries, before + [key], now)
      ensures |entries| <= |old(entries)| + 1 && forall k :: k in old(entries) ==> k in entries
      ensures SomeIgnored(git, before + [key]) <==> SomeIgnored(git, before) || ignored
    {
      RecordKeepsSound(git, entries, now, now, key);
      forall k | k in before + [key]
        ensures Recorded(git, entries[key := Entry(ignored, now)], k, now)
      {
        assert k != key ==> k in before && Recorded(git, entries, k, now);
      }
      entries := entries[key := Entry(ignored, now)];
      assert forall k :: k in before + [key] <==> k in before || k == key;
    }

    /** Whatever expired, was skipped or was evicted, the answer is git's. */
    method IsIgnored(path: RelPath, now: nat, gitFails: bool) returns (r: Result)
      requires Valid() && clock <= now
      modifies this`entries, this`clock, this`asked
      ensures Valid()
      ensures r.Answer? ==> r.ignored == Ignored(git, path)
      ensures Fresh(old(entries), File(path), now) ==> asked == old(asked) && r.Answer? && entries == old(entries)
      ensures !Fresh(old(entries), File(path), now) && (forall n :: 1 <= n < |path| ==> !Fresh(old(entries), Dir(path[..n]), now)) ==>
                asked == old(asked) + 1
      ensures asked == old(asked) + 1 && r.Answer? ==> Fresh(entries, File(path), now)
      ensures asked <= old(asked) + 1
      ensures r.Failed? ==> gitFails && entries == old(entries)
      ensures entries == old(entries) || |entries| <= 4096 || |entries| <= |path| + 1
    {
      var found := LookUp(path, now);
      if found.Hit? {
        return Answer(found.ignored);
      }
      asked := asked + 1;
      var ignored, ok := CheckIgnore(found.dirs + [File(path)], gitFails);
      if !ok {
        return Failed;
      }
      var result := Store(path, found.dirs, ignored, now);
      return Answer(result);
    }

    /** The gates in front of the cache; a change of .gitignore may change every rule. */
    method ShouldIgnoreFile(path: Option<RelPath>, now: nat, gitFails: bool, rules: Key -> bool) returns (r: Result)
      requires Valid() && clock <= now
      requires !TouchesRules(path) ==> rules == git
      modifies this`entries, this`clock, this`git, this`asked
      ensures Valid() && git == rules
      ensures r.Answer? ==> r.ignored == Skipped(git, path)
      ensures r.Failed? ==> gitFails && path.Some?
    {
      if path.None? {
        return Answer(true);
      }
      var rel := path.value;
      if rel == [] {
        return Answer(false);
      }
      if ".git" in rel {
        return Answer(true);
      }
      var base := rel[|rel| - 1];
      if base == ".gitignore" {
        Invalidate(rules);
      }
      if IsTempFileName(base) {
        return Answer(true);
      }
      r := IsIgnored(rel, now, gitFails);
    }
  }

  predicate TouchesRules(path: Option<RelPath>) {
    path.Some? && path.value != [] && ".git" !in path.value && path.value[|path.value| - 1] == ".gitignore"
  }

  predicate IsTempFileName(name: string) {
    |name| > 0 && ((|name| >= 4 && name[|name| - 4..] == ".swp") || name[0] == '~' || name[|name| - 1] == '~')
  }

  /** The temporary names are those of the three forms editors use, and no others. */
  lemma TempNamesAre(name: string)
    ensures IsTempFileName(name) <==> exists stem :: name == stem + ".swp" || name == "~" + stem || name == stem + "~"
  {
    if IsTempFileName(name) {
      if |name| >= 4 && name[|name| - 4..] == ".swp" {
        assert name == name[..|name| - 4] + ".swp";
      } else if name[0] == '~' {
        assert name == "~" + name[1..];
      } else {
        assert name == name[..|name| - 1] + "~";
      }
    }
    if stem :| name == stem + ".swp" || name == "~" + stem || name == stem + "~" {
      if name == stem + ".swp" {
        assert name[|name| - 4..] == ".swp";
      }
    }
  }

  /** Which changes the watcher skips: outside the repo, git's own, temporary or ignored. */
  predicate Skipped(git: Key -> bool, path: Option<RelPath>) {
    path.None?
    || (path.value != []
        && (".git" in path.value || IsTempFileName(path.value[|path.value| - 1]) || Ignored(git, path.value)))
  }

  ghost predicate Recorded(git: Key -> bool, entries: map<Key, Entry>, key: Key, now: nat) {
    key in entries && entries[key] == Entry(git(key), now)
  }

  ghost predicate AllRecorded(git: Key -> bool, entries: map<Key, Entry>, keys: seq<Key>, now: nat) {
    forall k :: k in keys ==> Recorded(git, entries, k, now)
  }

  ghost predicate SomeIgnored(git: Key -> bool, keys: seq<Key>) {
    exists k :: k in keys && git(k)
  }

  /** The directories just recorded back the path that is recorded with them. */
  lemma AnswersBack(git: Key -> bool, entries: map<Key, Entry>, dirs: seq<Key>, path: RelPath, now: nat)
    requires Covers(git, dirs, path, |path|) && AllRecorded(git, entries, dirs, now)
    ensures Backed(git, entries, path, now)
  {
    forall n
      ensures BackedAt(git, entries, path, now, n)
    {
      assert CoversAt(git, dirs, path, |path|, n);
      if 1 <= n < |path| && git(Dir(path[..n])) {
        assert Recorded(git, entries, Dir(path[..n]), now);
      }
    }
  }

  /** Asking only about directories that may be ignored still decides the question. */
  lemma QueryAnswers(git: Key -> bool, dirs: seq<Key>, path: RelPath)
    requires AsksOnly(dirs, path) && Covers(git, dirs, path, |path|)
    ensures SomeIgnored(git, dirs + [File(path)]) <==> Ignored(git, path)
  {
    var query := dirs + [File(path)];
    AncestorMeans(git, path, |path|);
    if k :| k in query && git(k) {
      if k in dirs {
        var i :| 0 <= i < |dirs| && dirs[i] == k;
        assert IsAncestor(dirs[i], path) && git(Dir(path[..|k.path|]));
      }
    }
    if Ignored(git, path) {
      if git(File(path)) {
        assert File(path) in query;
      } else {
        var n :| 1 <= n < |path| && git(Dir(path[..n]));
        assert CoversAt(git, dirs, path, |path|, n);
        assert Dir(path[..n]) in query;
      }
    }
  }

  // ---------- One lookup ----------

  /** An answer less than a minute old, in milliseconds. */
  predicate Fresh(entries: map<Key, Entry>, key: Key, now: nat) {
    key in entries && now < entries[key].at + 60_000
  }

  predicate Live(entries: map<Key, Entry>, key: Key, now: nat) {
    key in entries && now - entries[key].at < TTL
  }

  /** Every directory above depth `depth` that git ignores is among those to ask about. */
  ghost predicate Covers(git: Key -> bool, dirs: seq<Key>, path: RelPath, depth: nat) {
    forall n :: CoversAt(git, dirs, path, depth, n)
  }

  ghost predicate CoversAt(git: Key -> bool, dirs: seq<Key>, path: RelPath, depth: nat, n: int) {
    1 <= n < depth && n < |path| && git(Dir(path[..n])) ==> Dir(path[..n]) in dirs
  }

  ghost predicate AsksOnly(dirs: seq<Key>, path: RelPath) {
    forall i :: 0 <= i < |dirs| ==> IsAncestor(dirs[i], path)
  }

  ghost predicate IsAncestor(key: Key, path: RelPath) {
    key.Dir? && 1 <= |key.path| < |path| && key.path == path[..|key.path|]
  }

  ghost predicate NoneLive(git: Key -> bool, entries: map<Key, Entry>, path: RelPath, now: nat, depth: nat) {
    forall n :: NotLiveAt(git, entries, path, now, depth, n)
  }

  ghost predicate NotLiveAt(git: Key -> bool, entries: map<Key, Entry>, path: RelPath, now: nat, depth: nat, n: int) {
    1 <= n < depth && n < |path| && git(Dir(path[..n])) ==> !Live(entries, Dir(path[..n]), now)
  }

  lemma CoversOneMore(git: Key -> bool, dirs: seq<Key>, path: RelPath, depth: nat, live: bool)
    requires depth < |path| && Covers(git, dirs, path, depth)
    requires live ==> !git(Dir(path[..depth]))
    ensures Covers(git, if live then dirs else dirs + [Dir(path[..depth])], path, depth + 1)
  {
    var more, next := if live then dirs else dirs + [Dir(path[..depth])], depth + 1;
    forall n
      ensures CoversAt(git, more, path, next, n)
    {
      assert CoversAt(git, dirs, path, depth, n);
    }
  }

  lemma NoneLiveOneMore(git: Key -> bool, entries: map<Key, Entry>, path: RelPath, now: nat, depth: nat)
    requires depth < |path| && NoneLive(git, entries, path, now, depth)
    requires git(Dir(path[..depth])) ==> !Live(entries, Dir(path[..depth]), now)
    ensures NoneLive(git, entries, path, now, depth + 1)
  {
    var next := depth + 1;
    forall n
      ensures NotLiveAt(git, entries, path, now, next, n)
    {
      assert NotLiveAt(git, entries, path, now, depth, n);
    }
  }

  /** A live answer for the path, and no live ignored directory: then no directory is ignored. */
  lemma LoneAnswerIsRight(git: Key -> bool, entries: map<Key, Entry>, clock: nat, path: RelPath, now: nat)
    requires Sound(git, entries, clock) && Live(entries, File(path), now)
    requires NoneLive(git, entries, path, now, |path|)
    ensures entries[File(path)].ignored == Ignored(git, path)
  {
    assert EntryOk(git, entries, clock, File(path));
    AncestorMeans(git, path, |path|);
    forall n | 1 <= n < |path|
      ensures !git(Dir(path[..n]))
    {
      assert BackedAt(git, entries, path, entries[File(path)].at, n);
      assert NotLiveAt(git, entries, path, now, |path|, n);
    }
  }
}
