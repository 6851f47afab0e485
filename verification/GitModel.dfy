/**
 Just enough of git to argue about syncing: commits that carry a patch and their parents,
 branches as commits, and what commit, fetch, rebase, abort and push may do to them.
 A commit is a value, so equal commits have equal histories, as with content hashes.
 */
module GitModel {
  import opened Basics

  type Patch = nat

  /** Any number of parents: none for a first commit, two or more for a merge. */
  datatype Commit = Commit(patch: Patch, parents: Parents)

  datatype Parents = NoParents | Parent(first: Commit, others: Parents)

  /** A commit and all its ancestors. */
  function Reach(c: Commit): set<Commit>
    decreases c, 1
  {
    {c} + ReachAll(c.parents)
  }

  function ReachAll(ps: Parents): set<Commit>
    decreases ps, 0
  {
    match ps
    case NoParents => {}
    case Parent(first, others) => Reach(first) + ReachAll(others)
  }

  function Height(c: Commit): nat
    decreases c, 1
  {
    1 + MaxHeight(c.parents)
  }

  function MaxHeight(ps: Parents): nat
    decreases ps, 0
  {
    match ps
    case NoParents => 0
    case Parent(first, others) =>
      var rest := MaxHeight(others);
      if Height(first) > rest then Height(first) else rest
  }

  lemma {:induction false} ReachTransitive(a: Commit, b: Commit)
    requires a in Reach(b)
    ensures Reach(a) <= Reach(b)
    decreases b, 1
  {
    if a != b {
      ReachTransitiveAll(a, b.parents);
    }
  }

  lemma {:induction false} ReachTransitiveAll(a: Commit, ps: Parents)
    requires a in ReachAll(ps)
    ensures Reach(a) <= ReachAll(ps)
    decreases ps, 0
  {
    if a in Reach(ps.first) {
      ReachTransitive(a, ps.first);
    } else {
      ReachTransitiveAll(a, ps.others);
    }
  }

  lemma {:induction false} AncestorsAreLower(a: Commit, b: Commit)
    requires a in Reach(b)
    ensures a == b || Height(a) < Height(b)
    decreases b, 1
  {
    if a != b {
      AncestorsAreNotHigher(a, b.parents);
    }
  }

  lemma {:induction false} AncestorsAreNotHigher(a: Commit, ps: Parents)
    requires a in ReachAll(ps)
    ensures Height(a) <= MaxHeight(ps)
    decreases ps, 0
  {
    if a in Reach(ps.first) {
      AncestorsAreLower(a, ps.first);
    } else {
      AncestorsAreNotHigher(a, ps.others);
    }
  }

  /** Two commits that reach each other are the same commit. */
  lemma ReachAntisymmetric(a: Commit, b: Commit)
    requires a in Reach(b) && b in Reach(a)
    ensures a == b
  {
    if a != b {
      AncestorsAreLower(a, b);
      AncestorsAreLower(b, a);
    }
  }

  /** The history of a branch that may not exist. */
  function History(r: Option<Commit>): set<Commit> {
    match r
    case None => {}
    case Some(c) => Reach(c)
  }

  predicate IsMerge(c: Commit) {
    c.parents.Parent? && c.parents.others.Parent?
  }

  /** The patches of plain commits: what a rebase replays. Merges are flattened, so what only they hold is not counted. */
  function Patches(s: set<Commit>): set<Patch> {
    set c | c in s && !IsMerge(c) :: c.patch
  }

  lemma PatchesMonotone(s: set<Commit>, t: set<Commit>)
    requires s <= t
    ensures Patches(s) <= Patches(t)
  {
  }

  // ---------- Rebase ----------

  /**
   What a finished rebase may produce: the upstream is an ancestor, and every patch of a plain commit
   of the old history is kept, except that with a fork point commits the upstream once had may be dropped.
   */
  predicate RebaseOk(head: Commit, up: Commit, published: set<Commit>, forkPoint: bool, result: Commit) {
    && up in Reach(result)
    && forall c :: c in Reach(head) && !IsMerge(c) && !(forkPoint && c in published) ==> c.patch in Patches(Reach(result))
  }

  function Child(patch: Patch, parent: Commit): Commit {
    Commit(patch, Parent(parent, NoParents))
  }

  lemma ChildReach(patch: Patch, parent: Commit)
    ensures Reach(Child(patch, parent)) == {Child(patch, parent)} + Reach(parent)
  {
    assert ReachAll(Parent(parent, NoParents)) == Reach(parent) + ReachAll(NoParents);
  }

  function Stack(patches: seq<Patch>, base: Commit): Commit {
    if patches == [] then base else Stack(patches[1..], Child(patches[0], base))
  }

  lemma {:induction false} StackKeeps(patches: seq<Patch>, base: Commit)
    ensures Reach(base) <= Reach(Stack(patches, base))
    ensures forall p :: p in patches ==> p in Patches(Reach(Stack(patches, base)))
    decreases |patches|
  {
    if patches != [] {
      var next := Child(patches[0], base);
      ChildReach(patches[0], base);
      StackKeeps(patches[1..], next);
      assert next in Reach(next) && next in Reach(Stack(patches, base));
    }
  }

  lemma {:induction false} Enumerate(s: set<Patch>) returns (q: seq<Patch>)
    ensures forall p :: p in s ==> p in q
    decreases |s|
  {
    if s == {} {
      q := [];
    } else {
      var x :| x in s;
      var rest := Enumerate(s - {x});
      q := [x] + rest;
    }
  }

  /** The rebase contract can always be met: replaying every patch on the upstream is one way. */
  lemma RebaseIsPossible(head: Commit, up: Commit, published: set<Commit>, forkPoint: bool) returns (result: Commit)
    ensures RebaseOk(head, up, published, forkPoint, result)
  {
    var q := Enumerate(Patches(Reach(head)));
    result := Stack(q, up);
    StackKeeps(q, up);
    assert up in Reach(up);
  }

  lemma ReachOfMerge(patch: Patch, a: Commit, b: Commit)
    ensures Reach(Commit(patch, Parent(a, Parent(b, NoParents)))) ==
            {Commit(patch, Parent(a, Parent(b, NoParents)))} + Reach(a) + Reach(b)
  {
    assert ReachAll(Parent(b, NoParents)) == Reach(b) + ReachAll(NoParents);
    assert ReachAll(Parent(a, Parent(b, NoParents))) == Reach(a) + ReachAll(Parent(b, NoParents));
  }

  lemma FirstReach(patch: Patch)
    ensures Reach(Commit(patch, NoParents)) == {Commit(patch, NoParents)}
  {
    assert ReachAll(NoParents) == {};
  }

  /** The exception for merges is real: what only a merge commit holds can be gone after a finished rebase. */
  lemma MergeMayVanish(head: Commit, up: Commit, result: Commit)
    requires var first := Commit(0, NoParents);
             && head == Commit(3, Parent(Child(1, first), Parent(Child(2, first), NoParents)))
             && up == Child(4, first) && result == Child(2, Child(1, up))
    ensures RebaseOk(head, up, {}, false, result)
    ensures forall c :: c in Reach(result) ==> c.patch != head.patch
  {
    var first := Commit(0, NoParents);
    FirstReach(0);
    ChildReach(1, first);
    ChildReach(2, first);
    ReachOfMerge(3, Child(1, first), Child(2, first));
    ChildReach(4, first);
    ChildReach(1, up);
    ChildReach(2, Child(1, up));
    assert first in Reach(result) && Child(1, up) in Reach(result) && result in Reach(result);
  }

  // ---------- Counting ----------

  /** How many commits of `a`'s history are not in `b`'s. */
  function Ahead(a: Option<Commit>, b: Option<Commit>): nat {
    |History(a) - History(b)|
  }

  /** A listing of the commits of `a` that `b` lacks, each once. */
  ghost predicate RevList(commits: seq<Commit>, a: Option<Commit>, b: Option<Commit>) {
    && (forall i, j :: 0 <= i < j < |commits| ==> commits[i] != commits[j])
    && (forall c :: c in commits <==> c in History(a) - History(b))
  }

  /** `n` is what git counts: the length of such a listing. */
  ghost predicate Counts(n: nat, a: Option<Commit>, b: Option<Commit>) {
    exists commits :: RevList(commits, a, b) && |commits| == n
  }

  lemma {:induction false} DistinctSize(commits: seq<Commit>, s: set<Commit>)
    requires forall i, j :: 0 <= i < j < |commits| ==> commits[i] != commits[j]
    requires forall c :: c in commits <==> c in s
    ensures |commits| == |s|
  {
    if commits == [] {
      assert s == {};
    } else {
      var last := commits[|commits| - 1];
      var before := commits[..|commits| - 1];
      assert commits == before + [last];
      DistinctSize(before, s - {last});
    }
  }

  lemma {:induction false} ListOf(s: set<Commit>) returns (commits: seq<Commit>)
    ensures forall i, j :: 0 <= i < j < |commits| ==> commits[i] != commits[j]
    ensures forall c :: c in commits <==> c in s
  {
    if s == {} {
      commits := [];
    } else {
      var x :| x in s;
      commits := ListOf(s - {x});
      commits := commits + [x];
    }
  }

  /** The count is the size of the difference of the two histories. */
  lemma CountsMeans(n: nat, a: Option<Commit>, b: Option<Commit>)
    ensures Counts(n, a, b) <==> n == Ahead(a, b)
  {
    if Counts(n, a, b) {
      var commits :| RevList(commits, a, b) && |commits| == n;
      DistinctSize(commits, History(a) - History(b));
    }
    if n == Ahead(a, b) {
      var commits := ListOf(History(a) - History(b));
      DistinctSize(commits, History(a) - History(b));
      assert RevList(commits, a, b);
    }
  }

  /** HEAD contains the whole history of the other branch. */
  ghost predicate Contains(head: Option<Commit>, other: Option<Commit>) {
    other.Some? ==> other.value in History(head)
  }

  /** Nothing is behind exactly when HEAD contains the branch. */
  lemma NothingBehind(n: nat, tracking: Option<Commit>, head: Option<Commit>)
    requires Counts(n, tracking, head)
    ensures n == 0 <==> Contains(head, tracking)
  {
    CountsMeans(n, tracking, head);
    NotAheadMeansSubset(tracking, head);
    if tracking.Some? {
      assert tracking.value in History(tracking);
      if head.Some? && tracking.value in History(head) {
        ReachTransitive(tracking.value, head.value);
      }
    }
  }

  lemma NotAheadMeansSubset(a: Option<Commit>, b: Option<Commit>)
    ensures Ahead(a, b) == 0 <==> History(a) <= History(b)
  {
  }

  /** A branch that contains another and is not ahead of it is the same commit. */
  lemma EvenMeansEqual(a: Commit, b: Commit)
    requires b in Reach(a) && Ahead(Some(a), Some(b)) == 0
    ensures a == b
  {
    NotAheadMeansSubset(Some(a), Some(b));
    assert a in Reach(a);
    ReachAntisymmetric(a, b);
  }

  /**
   The count of commits ahead of the tracking branch is the count of commits the remote really
   gained exactly when both have equally long histories, in particular if nobody moved the remote.
   */
  lemma PushedCountIsExact(head: Commit, tracking: Commit, remote: Commit)
    requires tracking in Reach(head) && remote in Reach(head)
    ensures Ahead(Some(head), Some(tracking)) == Ahead(Some(head), Some(remote))
            <==> |Reach(tracking)| == |Reach(remote)|
  {
    ReachTransitive(tracking, head);
    ReachTransitive(remote, head);
    SizeOfDifference(Reach(head), Reach(tracking));
    SizeOfDifference(Reach(head), Reach(remote));
  }

  /** And they can differ: the tracking branch lags behind a remote whose commit HEAD already contains. */
  lemma PushedCountCanDiffer(tracking: Commit, p: Patch, q: Patch)
    ensures var remote := Child(p, tracking);
            var head := Child(q, remote);
            && tracking in Reach(head) && remote in Reach(head)
            && Ahead(Some(head), Some(tracking)) != Ahead(Some(head), Some(remote))
  {
    var remote := Child(p, tracking);
    var head := Child(q, remote);
    ChildReach(p, tracking);
    ChildReach(q, remote);
    ChildIsNew(p, tracking);
    assert tracking in Reach(tracking) && remote in Reach(remote);
    PushedCountIsExact(head, tracking, remote);
  }

  lemma ChildIsNew(patch: Patch, parent: Commit)
    ensures Child(patch, parent) !in Reach(parent)
  {
    if Child(patch, parent) in Reach(parent) {
      ChildReach(patch, parent);
      ReachAntisymmetric(Child(patch, parent), parent);
    }
  }

  lemma SizeOfDifference(s: set<Commit>, t: set<Commit>)
    requires t <= s
    ensures |s - t| == |s| - |t|
  {
    assert s == (s - t) + t;
  }

  // ---------- A clone and its remote ----------

  /**
   `head` is what HEAD names; `rebasing` is the original HEAD while a rebase is in progress;
   `published` is everything the tracking branch has ever contained.
   */
  datatype Git = Git(
    head: Option<Commit>, rebasing: Option<Commit>, tracking: Option<Commit>, remote: Option<Commit>,
    published: set<Commit>
  )

  /** The local work: HEAD, or what HEAD was before an unfinished rebase. */
  ghost function Work(g: Git): set<Commit> {
    History(if g.rebasing.Some? then g.rebasing else g.head)
  }

  ghost predicate GitValid(g: Git) {
    g.tracking.Some? ==> g.tracking.value in g.published
  }

  /** A patch of the local work that is still there, or has been upstream. */
  ghost predicate KeptOrUpstream(a: Git, b: Git, p: Patch) {
    p in Patches(Work(a) + a.published) ==> p in Patches(Work(b) + b.published)
  }

  ghost predicate KeptLocally(a: Git, b: Git, p: Patch) {
    p in Patches(Work(a)) ==> p in Patches(Work(b))
  }

  /** Local work is never lost: each patch of `a` is in the local history or has been upstream. */
  ghost predicate Keeps(a: Git, b: Git) {
    forall p :: KeptOrUpstream(a, b, p)
  }

  /** Nothing of the local history is lost, whether it was upstream or not. */
  ghost predicate KeepsAll(a: Git, b: Git) {
    forall p :: KeptLocally(a, b, p)
  }

  lemma KeepsMeans(a: Git, b: Git)
    ensures Keeps(a, b) <==> Patches(Work(a) + a.published) <= Patches(Work(b) + b.published)
    ensures KeepsAll(a, b) <==> Patches(Work(a)) <= Patches(Work(b))
  {
    if Keeps(a, b) {
      forall p
        ensures p in Patches(Work(a) + a.published) ==> p in Patches(Work(b) + b.published)
      {
        assert KeptOrUpstream(a, b, p);
      }
    }
    if KeepsAll(a, b) {
      forall p
        ensures p in Patches(Work(a)) ==> p in Patches(Work(b))
      {
        assert KeptLocally(a, b, p);
      }
    }
  }

  lemma KeepsTransitive(a: Git, b: Git, c: Git)
    ensures Keeps(a, b) && Keeps(b, c) ==> Keeps(a, c)
    ensures KeepsAll(a, b) && KeepsAll(b, c) ==> KeepsAll(a, c)
  {
    forall p
      ensures Keeps(a, b) && Keeps(b, c) ==> KeptOrUpstream(a, c, p)
      ensures KeepsAll(a, b) && KeepsAll(b, c) ==> KeptLocally(a, c, p)
    {
      assert KeptOrUpstream(a, b, p) && KeptOrUpstream(b, c, p) ==> KeptOrUpstream(a, c, p);
      assert KeptLocally(a, b, p) && KeptLocally(b, c, p) ==> KeptLocally(a, c, p);
    }
  }

  lemma SameWorkKeeps(a: Git, b: Git)
    requires Work(a) <= Work(b) && a.published <= b.published
    ensures Keeps(a, b) && KeepsAll(a, b)
  {
    PatchesMonotone(Work(a), Work(b));
    PatchesMonotone(Work(a) + a.published, Work(b) + b.published);
  }

  lemma RebaseKeeps(a: Git, b: Git, forkPoint: bool)
    requires a.head.Some? && b.head.Some? && a.tracking.Some? && a.rebasing.None? && b.rebasing.None?
    requires RebaseOk(a.head.value, a.tracking.value, a.published, forkPoint, b.head.value)
    requires a.published <= b.published
    ensures Keeps(a, b) && (!forkPoint ==> KeepsAll(a, b))
  {
    forall p
      ensures KeptOrUpstream(a, b, p)
    {
      if p in Patches(Work(a) + a.published) {
        var c :| c in Work(a) + a.published && !IsMerge(c) && c.patch == p;
        if c !in a.published {
          var d :| d in Reach(b.head.value) && !IsMerge(d) && d.patch == p;
          assert d in Work(b) + b.published;
        }
      }
    }
    if !forkPoint {
      forall p
        ensures KeptLocally(a, b, p)
      {
      }
    }
  }
}
