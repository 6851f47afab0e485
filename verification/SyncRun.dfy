/**
 One sync run: commit, fetch, check for a known conflict, rebase, push with retries, and the
 bookkeeping in the repo's state. Git commands may fail at any point, and other clients may
 push or force-push to the remote between any two steps.
 */
module SyncRuns {
  import opened Basics
  import opened GitModel
  import opened RepoStates

  datatype Err =
    | PreflightErr
    | NoHeadErr
    | ConflictErr(files: seq<string>, head: Option<Commit>, up: Option<Commit>)
    | DirtyErr
    | StatErr
    | AbortErr
    | OfflineErr
    | OtherErr

  const PUSH_ATTEMPTS: nat := 3

  datatype PushOutcome = Accepted | Retryable | Fatal

  // ---------- What the world answers ----------

  /** What other clients do to the remote branch before a command reaches it. */
  datatype Others = Stay | MoveTo(remote: Option<Commit>)

  function After(g: Git, others: Others): Git {
    if others.MoveTo? then g.(remote := others.remote) else g
  }

  datatype Preflighting = Preflighting(
    locateFails: bool, environment: bool, statFails: bool, merging: bool, detached: bool, readFails: bool, noUpstream: bool
  )

  datatype Committing = Clean | Made(patch: Patch) | Refused

  datatype Fetching = Through(lookupFails: bool) | NoNetwork | FetchError

  datatype Counting = Counted | CountError | UpstreamGone

  /** A rebase finishes, does not start, or stops with HEAD somewhere in the middle. */
  datatype Rebasing =
    | Finished(result: Commit)
    | NotStarted(statFails: bool, dirty: bool)
    | Stopped(middle: Commit, statFails: bool, abortFails: bool, plainConflict: bool, files: seq<string>,
              headFails: bool, upFails: bool)

  datatype Pushing = Taken | Rejected(slept: bool) | PushError

  datatype Guarding = Guarding(lookupFails: bool, firstFails: bool, secondFails: bool)

  /**
   Every answer a run gets: the n-th of each kind of command, with what others do before it, whether
   the watcher is cancelled, and the pause and resume commands that land during the run.
   */
  datatype Answers = Answers(
    preflight: nat -> Preflighting, configured: bool,
    commit: nat -> Committing, beforeCommit: nat -> Others,
    fetch: nat -> Fetching, beforeFetch: nat -> Others,
    count: nat -> Counting, guard: Guarding,
    rebase: nat -> Rebasing, beforeRebase: nat -> Others,
    push: nat -> Pushing, beforePush: nat -> Others,
    cancelled: bool, commands: seq<bool>
  )

  /** The remote branch after what others do before the commit and before the fetch of a run. */
  function FoundBy(a: Answers, git: Git, commit: nat, fetch: nat): Option<Commit> {
    After(After(git, a.beforeCommit(commit)), a.beforeFetch(fetch)).remote
  }

  /** The commit that records this patch on top of HEAD. */
  function NewCommit(head: Option<Commit>, patch: Patch): Commit {
    if head.Some? then Child(patch, head.value) else GitModel.Commit(patch, NoParents)
  }

  lemma NewCommitHolds(head: Option<Commit>, patch: Patch)
    ensures Reach(NewCommit(head, patch)) == {NewCommit(head, patch)} + History(head)
    ensures patch in Patches(Reach(NewCommit(head, patch)))
  {
    if head.Some? {
      ChildReach(patch, head.value);
    } else {
      FirstReach(patch);
    }
    assert NewCommit(head, patch) in Reach(NewCommit(head, patch)) && !IsMerge(NewCommit(head, patch));
  }

  lemma NewCommitIsNew(head: Option<Commit>, patch: Patch)
    ensures Some(NewCommit(head, patch)) != head
  {
    if head.Some? {
      ChildIsNew(patch, head.value);
      assert head.value in Reach(head.value);
    }
  }

  /** There is nothing to commit, or a commit nobody has seen is made of it. */
  predicate CommitGoes(git: Git, answer: Committing) {
    answer.Clean? || (answer.Made? && NewCommit(git.head, answer.patch) !in git.published)
  }

  function Committed(head: Option<Commit>, answer: Committing): Option<Commit> {
    if answer.Made? then Some(NewCommit(head, answer.patch)) else head
  }

  predicate Passes(p: Preflighting) {
    !p.locateFails && !p.merging && !p.detached && !p.readFails && !p.noUpstream
  }

  /** HEAD has only grown since the conflict and has not taken the upstream in. */
  ghost predicate StillApart(g: Git, st: RepoState)
    requires Armed(st)
  {
    && g.rebasing.None? && st.conflictHead.value in History(g.head) && st.conflictUp.value !in History(g.head)
    && st.conflictUp.value in g.published
  }

  class SyncRun {
    const force: bool
    const prev: RepoState
    const answers: Answers
    /** The clone as the run found it. */
    const origin: Git
    var g: Git
    var st: RepoState
    /** Conflict events emitted; other events are not modelled. */
    var conflictEvents: nat

    var committed: bool
    var pulled: nat
    var pushed: nat
    var dropped: nat
    var ahead: nat
    var behind: nat
    var guarded: bool
    var forced: bool

    // How many commands of each kind the run has given.
    var preflights: nat
    var commits: nat
    var fetches: nat
    var counts: nat
    var rebases: nat
    var pushes: nat

    // What happened, for the statements below.
    /** The remote branch at the last successful contact with it. */
    ghost var contact: Option<Commit>
    /** That contact found the branch missing, and the tracking branch could not be looked up. */
    ghost var blind: bool
    /** How many commits HEAD was ahead when a push was accepted. */
    ghost var landed: Option<nat>
    /** The tracking branch that was counted from. */
    ghost var landedFrom: Option<Commit>
    /** Some fetch of this run saw a forced update. */
    ghost var sawForced: bool
    /** A query of the conflict check failed. */
    ghost var guardFault: bool
    /** The tracking branch after the first successful fetch. */
    ghost var fetched: Option<Option<Commit>>
    /** The run ended because the watcher was cancelled. */
    ghost var interrupted: bool

    constructor (g: Git, st: RepoState, force: bool, answers: Answers)
      ensures Unstarted() && this.g == g == origin && this.st == st == prev
      ensures this.force == force && this.answers == answers
    {
      this.g, this.st, this.prev, this.force, this.origin, this.answers := g, st, st, force, g, answers;
      conflictEvents, committed, pulled, pushed, dropped, ahead, behind := 0, false, 0, 0, 0, 0, 0;
      guarded, forced := false, false;
      preflights, commits, fetches, counts, rebases, pushes, contact, blind := 0, 0, 0, 0, 0, 0, None, false;
      landed, landedFrom := None, None;
      sawForced, guardFault, fetched, interrupted := false, false, None, false;
      new;
      SameWorkKeeps(g, g);
    }

    ghost predicate Unstarted()
      reads this
    {
      && g == origin && st == prev && WorkKept()
      && !forced && !sawForced && !committed && !guardFault && !guarded && !interrupted && !blind
      && preflights == commits == fetches == counts == pushes == rebases == conflictEvents == 0
      && pushed == pulled == dropped == 0 && landed.None? && fetched.None?
    }

    // ---------- Git commands ----------

    /** No patch of the original work is lost; without a forced update, none leaves the local history. */
    ghost predicate WorkKept()
      reads `g, `sawForced
    {
      Keeps(origin, g) && (!sawForced ==> KeepsAll(origin, g))
    }

    /** HEAD contains the tracking branch and `ahead` counts what it has on top. */
    ghost predicate Aligned()
      reads `g, `ahead
    {
      && g.head.Some? && g.rebasing.None?
      && (g.tracking.Some? ==> g.tracking.value in Reach(g.head.value))
      && Counts(ahead, g.head, g.tracking)
    }

    /** Other clients move the remote branch, forwards or not, or delete it. */
    method LetOthers(others: Others)
      requires WorkKept()
      modifies `g
      ensures WorkKept() && g == After(old(g), others)
    {
      g := After(g, others);
      StillKept(origin, old(g), g);
    }

    /** Commits whatever is in the worktree; a new commit is one nobody has seen. */
    method Commit() returns (err: Option<Err>)
      requires WorkKept() && g.rebasing.None?
      modifies `g, `commits, `committed
      ensures WorkKept() && commits == old(commits) + 1 && g.rebasing.None?
      ensures g.tracking == old(g).tracking && g.published == old(g).published
      ensures g.remote == After(old(g), answers.beforeCommit(old(commits))).remote
      ensures CommitGoes(old(g), answers.commit(old(commits))) ==>
                && err.None? && g.head == Committed(old(g).head, answers.commit(old(commits)))
                && committed == (old(committed) || answers.commit(old(commits)).Made?)
      ensures answers.commit(old(commits)).Made? && err.None? ==> answers.commit(old(commits)).patch in Patches(History(g.head))
      ensures committed == (old(committed) || g.head != old(g).head)
      ensures err.Some? ==> err == Some(OtherErr) && g.head == old(g).head
      ensures answers.commit(old(commits)).Refused? ==> err.Some?
      ensures g.head == old(g).head ||
              (g.head.Some? && g.head.value !in g.published && History(g.head) == History(old(g).head) + {g.head.value})
    {
      var n := commits;
      commits := commits + 1;
      LetOthers(answers.beforeCommit(n));
      match answers.commit(n)
      case Clean => return None;
      case Refused => return Some(OtherErr);
      case Made(patch) =>
        var c := NewCommit(g.head, patch);
        NewCommitHolds(g.head, patch);
        if c in g.published {
          return Some(OtherErr);
        }
        NewCommitIsNew(g.head, patch);
        g := g.(head := Some(c));
        StillKept(origin, old(g), g);
        committed := true;
        return None;
    }

    /** The remote branch does not contain what the tracking branch was. */
    ghost predicate Rewritten(tracking: Option<Commit>, remote: Option<Commit>) {
      tracking.Some? && remote.Some? && tracking.value !in Reach(remote.value)
    }

    /** A fetch that gets through fails only on a vanished branch whose tracking branch can be looked up. */
    ghost predicate GetsThrough(answer: Fetching, tracking: Option<Commit>, remote: Option<Commit>) {
      answer.Through? && (remote.Some? || tracking.None? || answer.lookupFails)
    }

    /** The remote contact that the tracking branch stands for. */
    ghost predicate InTouch()
      reads `g, `contact, `blind
    {
      if blind then contact.None? && g.tracking.Some? else contact == g.tracking
    }

    /** Brings the tracking branch up to date and notices a forced update. */
    method Fetch() returns (err: Option<Err>)
      requires WorkKept() && GitValid(g)
      modifies `g, `fetches, `forced, `contact, `blind, `sawForced
      ensures WorkKept() && GitValid(g) && fetches == old(fetches) + 1
      ensures g.head == old(g).head && g.rebasing == old(g).rebasing && old(g).published <= g.published
      ensures g.remote == After(old(g), answers.beforeFetch(old(fetches))).remote
      ensures err.None? <==> GetsThrough(answers.fetch(old(fetches)), old(g).tracking, g.remote)
      ensures err.Some? ==>
                match answers.fetch(old(fetches))
                case NoNetwork => err.value == OfflineErr
                case FetchError => err.value == OtherErr
                case Through(_) => err.value == PreflightErr
      ensures err.Some? ==> g.tracking == old(g).tracking && contact == old(contact) && blind == old(blind)
      ensures err.None? ==>
                && contact == g.remote && InTouch() && blind == (g.remote.None? && old(g).tracking.Some?)
                && g.tracking == if g.remote.Some? then g.remote else old(g).tracking
      ensures err.None? && g.remote.Some? ==>
                g == After(old(g), answers.beforeFetch(old(fetches))).(tracking := g.remote, published := old(g).published + History(g.remote))
      ensures var rewritten := err.None? && Rewritten(old(g).tracking, g.remote);
              sawForced == (old(sawForced) || rewritten) && forced == (old(forced) || rewritten)
    {
      var n := fetches;
      fetches := fetches + 1;
      LetOthers(answers.beforeFetch(n));
      match answers.fetch(n)
      case NoNetwork => return Some(OfflineErr);
      case FetchError => return Some(OtherErr);
      case Through(lookupFails) =>
        if g.remote.None? {
          if g.tracking.Some? && !lookupFails {
            return Some(PreflightErr);
          }
          contact, blind := None, g.tracking.Some?;
          return None;
        }
        if g.tracking.Some? && g.tracking.value !in Reach(g.remote.value) {
          forced, sawForced := true, true;
        }
        g := g.(tracking := g.remote, published := g.published + Reach(g.remote.value));
        contact, blind := g.remote, false;
        StillKept(origin, old(g), g);
        return None;
    }

    method Count() returns (err: Option<Err>)
      modifies `ahead, `behind, `counts
      ensures counts == old(counts) + 1
      ensures match answers.count(old(counts))
              case Counted => err.None?
              case CountError => err == Some(OtherErr)
              case UpstreamGone => err == if g.tracking.None? then Some(PreflightErr) else None
      ensures err.None? ==> Counts(ahead, g.head, g.tracking) && Counts(behind, g.tracking, g.head)
      ensures err.Some? ==> err == Some(OtherErr) || err == Some(PreflightErr)
    {
      var n := counts;
      counts := counts + 1;
      if answers.count(n).CountError? {
        return Some(OtherErr);
      }
      if answers.count(n).UpstreamGone? && g.tracking.None? {
        return Some(PreflightErr);
      }
      ahead, behind := Ahead(g.head, g.tracking), Ahead(g.tracking, g.head);
      CountsMeans(ahead, g.head, g.tracking);
      CountsMeans(behind, g.tracking, g.head);
      return None;
    }

    /** A rebase that stops halfway and cannot be found or undone. */
    predicate Sticks(answer: Rebasing) {
      answer.Stopped? && (answer.statFails || answer.abortFails)
    }

    /** The clone is left in the middle of it, with the original HEAD in git's keeping, and the error says so. */
    ghost predicate LeftInTheMiddle(head: Option<Commit>, answer: Rebasing, err: Option<Err>)
      requires Sticks(answer)
      reads `g
    {
      g.rebasing == head && err == Some(if answer.statFails then StatErr else AbortErr)
    }

    /** A reported conflict is between HEAD as restored and the tracking branch, as far as they could be looked up. */
    ghost predicate NamesConflict(err: Option<Err>)
      reads `g
    {
      err.Some? && err.value.ConflictErr? ==>
        && err.value.files != [] && g.rebasing.None?
        && (err.value.head.None? || err.value.head == g.head)
        && (err.value.up.None? || err.value.up == g.tracking)
    }

    /** A rebase that finishes with this result. */
    ghost predicate Finishes(git: Git, rebase: nat, forkPoint: bool, result: Commit) {
      && git.head.Some? && git.tracking.Some? && answers.rebase(rebase) == Finished(result)
      && RebaseOk(git.head.value, git.tracking.value, git.published, forkPoint, result)
    }

    /** A rebase that stops on conflicts and is undone. */
    predicate Collides(answer: Rebasing) {
      answer.Stopped? && !answer.statFails && !answer.abortFails && answer.plainConflict && answer.files != []
    }

    /** The error names the files, and both sides as far as they could be looked up. */
    predicate Tells(answer: Rebasing, head: Option<Commit>, tracking: Option<Commit>, err: Option<Err>)
      requires Collides(answer)
    {
      && err.Some? && err.value.ConflictErr? && err.value.files == answer.files
      && (answer.headFails ==> err.value.head.None?) && (!answer.headFails ==> err.value.head == head)
      && (answer.upFails ==> err.value.up.None?) && (!answer.upFails ==> err.value.up == tracking)
    }

    /** One `git rebase`, undone by an abort when it stops halfway. */
    method RebaseOnto(forkPoint: bool) returns (err: Option<Err>)
      requires WorkKept() && (forkPoint ==> sawForced) && g.rebasing.None? && g.head.Some?
      modifies `g, `rebases
      ensures WorkKept() && rebases == old(rebases) + 1 && g.head.Some?
      ensures g.tracking == old(g).tracking && g.published == old(g).published
      ensures err.None? ==> g.rebasing.None? && g.tracking.Some? && g.tracking.value in Reach(g.head.value)
      ensures g.rebasing.Some? ==> g.rebasing == old(g).head && (err == Some(StatErr) || err == Some(AbortErr))
      ensures err.Some? && g.rebasing.None? ==> g.head == old(g).head
      ensures NamesConflict(err)
      ensures err.Some? ==> !err.value.NoHeadErr? && !err.value.PreflightErr?
      ensures old(g).tracking.Some? && Sticks(answers.rebase(old(rebases))) ==>
                LeftInTheMiddle(old(g).head, answers.rebase(old(rebases)), err)
      ensures g.remote == After(old(g), answers.beforeRebase(old(rebases))).remote
      ensures forall result :: Finishes(old(g), old(rebases), forkPoint, result) ==> err.None? && g.head == Some(result)
      ensures old(g).tracking.Some? && Collides(answers.rebase(old(rebases))) ==>
                g.rebasing.None? && Tells(answers.rebase(old(rebases)), g.head, g.tracking, err)
      ensures old(g).tracking.Some? && answers.rebase(old(rebases)).NotStarted? ==>
                g.rebasing.None? && err == Some(if answers.rebase(old(rebases)).statFails then StatErr
                                                else if answers.rebase(old(rebases)).dirty then DirtyErr else OtherErr)
    {
      var n := rebases;
      rebases := rebases + 1;
      LetOthers(answers.beforeRebase(n));
      if g.tracking.None? {
        return Some(OtherErr);
      }
      match answers.rebase(n)
      case Finished(result) =>
        if !RebaseOk(g.head.value, g.tracking.value, g.published, forkPoint, result) {
          return Some(OtherErr);
        }
        ghost var before := g;
        g := g.(head := Some(result));
        RebaseKeeps(before, g, forkPoint);
        KeepsTransitive(origin, before, g);
        return None;
      case NotStarted(statFails, dirty) =>
        return Some(if statFails then StatErr else if dirty then DirtyErr else OtherErr);
      case Stopped(_, _, _, _, _, _, _) =>
        err := Unwind(answers.rebase(n));
    }

    /** A rebase stopped in the middle: aborted, unless looking for it or aborting it fails. */
    method Unwind(stop: Rebasing) returns (err: Option<Err>)
      requires WorkKept() && g.rebasing.None? && g.head.Some? && stop.Stopped?
      modifies `g
      ensures WorkKept() && g.head.Some? && err.Some?
      ensures g.tracking == old(g).tracking && g.published == old(g).published
      ensures stop.statFails ==> err == Some(StatErr)
      ensures !stop.statFails && stop.abortFails ==> err == Some(AbortErr)
      ensures g.rebasing.Some? <==> stop.statFails || stop.abortFails
      ensures if g.rebasing.Some? then g.rebasing == old(g).head else g.head == old(g).head
      ensures NamesConflict(err)
      ensures !err.value.NoHeadErr? && !err.value.PreflightErr?
      ensures g.remote == old(g).remote
      ensures Collides(stop) ==> Tells(stop, g.head, g.tracking, err)
      ensures !Sticks(stop) && !Collides(stop) ==> err == Some(OtherErr)
    {
      ghost var before := g;
      g := g.(rebasing := g.head, head := Some(stop.middle));
      StillKept(origin, before, g);
      if stop.statFails {
        return Some(StatErr);
      }
      if stop.abortFails {
        return Some(AbortErr);
      }
      before := g;
      g := g.(head := g.rebasing, rebasing := None);
      StillKept(origin, before, g);
      if !stop.plainConflict || stop.files == [] {
        return Some(OtherErr);
      }
      return Some(ConflictErr(stop.files, if stop.headFails then None else g.head, if stop.upFails then None else g.tracking));
    }

    /** One push; a remote that is not behind HEAD by then rejects it, and that or a lock can be retried. */
    method PushOnce() returns (outcome: PushOutcome)
      requires WorkKept() && GitValid(g) && Aligned()
      modifies `g, `pushes, `contact, `blind, `landed, `landedFrom
      ensures WorkKept() && pushes == old(pushes) + 1
      ensures GitValid(g) && g.rebasing.None? && g.head == old(g).head && old(g).published <= g.published
      ensures outcome == Accepted ==>
                && g.remote == g.head && g.tracking == g.head && contact == g.head && !blind
                && landed == Some(ahead) && landedFrom == old(g).tracking && Counts(ahead, g.head, landedFrom)
      ensures var git := After(old(g), answers.beforePush(old(pushes)));
              && (outcome != Accepted ==> g.remote == git.remote)
              && (answers.push(old(pushes)).Taken? && Contains(old(g).head, git.remote) ==> outcome == Accepted)
              && (answers.push(old(pushes)).Taken? && !Contains(old(g).head, git.remote) ==> outcome == Retryable)
              && (answers.push(old(pushes)).Rejected? ==> outcome == Retryable)
              && (answers.push(old(pushes)).PushError? ==> outcome == Fatal)
      ensures outcome != Accepted ==>
                && g.tracking == old(g).tracking && g.published == old(g).published
                && contact == old(contact) && blind == old(blind) && landed == old(landed)
    {
      var n := pushes;
      pushes := pushes + 1;
      LetOthers(answers.beforePush(n));
      if answers.push(n).Taken? && (g.remote.None? || g.remote.value in History(g.head)) {
        ghost var before := g;
        landed, landedFrom := Some(ahead), g.tracking;
        g := g.(remote := g.head, tracking := g.head, published := g.published + Reach(g.head.value));
        contact, blind := g.head, false;
        StillKept(origin, before, g);
        return Accepted;
      }
      return if answers.push(n).PushError? then Fatal else Retryable;
    }

    // ---------- The run ----------

    /** The upstream has something HEAD lacks, or was rewritten. */
    ghost predicate Moves(git: Git, rewritten: bool) {
      rewritten || !Contains(git.head, git.tracking)
    }

    /** HEAD is, or comes to be, on top of the tracking branch without trouble. */
    ghost predicate Tops(git: Git, rewritten: bool, count: nat, rebase: nat) {
      && git.head.Some? && git.tracking.Some? && answers.count(count).Counted?
      && (Moves(git, rewritten) ==>
            && answers.rebase(rebase).Finished? && Finishes(git, rebase, rewritten, answers.rebase(rebase).result)
            && answers.beforeRebase(rebase).Stay? && answers.count(count + 1).Counted?)
    }

    ghost function Top(git: Git, rewritten: bool, rebase: nat): Option<Commit> {
      if Moves(git, rewritten) && answers.rebase(rebase).Finished? then Some(answers.rebase(rebase).result) else git.head
    }

    ghost function CountsAfter(git: Git, rewritten: bool, count: nat): nat {
      if Moves(git, rewritten) then count + 2 else count + 1
    }

    /** Rebases if the upstream moved, committing once more if the worktree changed in between. */
    method Rebase() returns (err: Option<Err>)
      requires WorkKept() && (forced ==> sawForced) && GitValid(g) && g.rebasing.None? && g.head.Some?
      modifies `g, `commits, `counts, `rebases, `ahead, `behind, `committed, `forced, `pulled, `dropped
      ensures WorkKept() && GitValid(g) && g.head.Some?
      ensures g.tracking == old(g).tracking && g.published == old(g).published
      ensures err.None? ==> Aligned()
      ensures g.rebasing.Some? ==> err == Some(StatErr) || err == Some(AbortErr)
      ensures err.Some? ==> !err.value.NoHeadErr?
      ensures NamesConflict(err)
      ensures forced ==> old(forced)
      ensures old(commits) <= commits && old(rebases) <= rebases
      ensures err.None? ==> !forced && pulled >= old(pulled) && Counts(pulled - old(pulled), old(g).tracking, old(g).head)
      ensures err.None? ==> exists before: nat ::
                Counts(before, old(g).head, old(g).tracking)
                && dropped == old(dropped) + if old(forced) && ahead < before then before - ahead else 0
      ensures answers.count(old(counts)).Counted? ==>
                if !old(forced) && Contains(old(g).head, old(g).tracking)
                then err.None? && g == old(g) && rebases == old(rebases)
                else && old(rebases) < rebases
                     && (old(g).tracking.Some? && Sticks(answers.rebase(old(rebases))) ==>
                           LeftInTheMiddle(old(g).head, answers.rebase(old(rebases)), err))
      ensures Tops(old(g), old(forced), old(counts), old(rebases)) ==>
                && err.None? && g == old(g).(head := Top(old(g), old(forced), old(rebases))) && committed == old(committed)
                && commits == old(commits) && counts == CountsAfter(old(g), old(forced), old(counts)) && !forced
                && rebases == old(rebases) + if Moves(old(g), old(forced)) then 1 else 0
      ensures answers.count(old(counts)).Counted? && old(g).tracking.Some? && Moves(old(g), old(forced))
              && Collides(answers.rebase(old(rebases))) ==>
                && g.head == old(g).head && g.rebasing.None?
                && Tells(answers.rebase(old(rebases)), g.head, g.tracking, err)
    {
      err := Count();
      if err.Some? {
        return;
      }
      NothingBehind(behind, g.tracking, g.head);
      if behind == 0 && !forced {
        return;
      }
      err := MoveOnTop();
    }

    /** The rebase of a counted clone, and the bookkeeping after it. */
    method MoveOnTop() returns (err: Option<Err>)
      requires WorkKept() && (forced ==> sawForced) && GitValid(g) && g.rebasing.None? && g.head.Some?
      requires Counts(ahead, g.head, g.tracking) && Counts(behind, g.tracking, g.head)
      modifies `g, `commits, `counts, `rebases, `ahead, `behind, `committed, `forced, `pulled, `dropped
      ensures WorkKept() && GitValid(g) && g.head.Some?
      ensures g.tracking == old(g).tracking && g.published == old(g).published
      ensures err.None? ==> Aligned()
      ensures g.rebasing.Some? ==> err == Some(StatErr) || err == Some(AbortErr)
      ensures err.Some? ==> !err.value.NoHeadErr?
      ensures NamesConflict(err)
      ensures forced ==> old(forced)
      ensures old(commits) <= commits && old(rebases) < rebases
      ensures err.None? ==> !forced && pulled == old(pulled) + old(behind)
      ensures err.None? ==> dropped == old(dropped) + if old(forced) && ahead < old(ahead) then old(ahead) - ahead else 0
      ensures old(g).tracking.Some? && Sticks(answers.rebase(old(rebases))) ==>
                LeftInTheMiddle(old(g).head, answers.rebase(old(rebases)), err)
      ensures old(g).tracking.Some? && Collides(answers.rebase(old(rebases))) ==>
                && g.head == old(g).head && g.rebasing.None?
                && Tells(answers.rebase(old(rebases)), g.head, g.tracking, err)
      ensures forall result :: Finishes(old(g), old(rebases), old(forced), result) && answers.beforeRebase(old(rebases)).Stay?
                               && answers.count(old(counts)).Counted? ==>
                && err.None? && g == old(g).(head := Some(result)) && committed == old(committed)
                && commits == old(commits) && counts == old(counts) + 1 && rebases == old(rebases) + 1
    {
      var aheadBefore, behindBefore, forkPoint := ahead, behind, forced;
      err := RebaseCommitting(forkPoint);
      if err.Some? {
        return;
      }
      forced := false;
      pulled := pulled + behindBefore;
      err := Count();
      if err.Some? {
        return;
      }
      if forkPoint && ahead < aheadBefore {
        dropped := dropped + (aheadBefore - ahead);
      }
    }

    /** The worktree turns out dirty, what is in it is committed, and the second rebase finishes. */
    ghost predicate FinishesCommitted(git: Git, rebase: nat, commit: nat, forkPoint: bool, result: Commit) {
      && git.tracking.Some? && answers.rebase(rebase) == NotStarted(false, true) && CommitGoes(git, answers.commit(commit))
      && Finishes(git.(head := Committed(git.head, answers.commit(commit))), rebase + 1, forkPoint, result)
    }

    /** The rebase itself, tried again after a commit when the worktree turned out dirty. */
    method RebaseCommitting(forkPoint: bool) returns (err: Option<Err>)
      requires WorkKept() && (forkPoint ==> sawForced) && g.rebasing.None? && g.head.Some?
      modifies `g, `commits, `rebases, `committed
      ensures WorkKept() && g.head.Some? && g.tracking == old(g).tracking && g.published == old(g).published
      ensures err.None? ==> g.rebasing.None? && g.tracking.Some? && g.tracking.value in Reach(g.head.value)
      ensures g.rebasing.Some? ==> err == Some(StatErr) || err == Some(AbortErr)
      ensures err.Some? ==> !err.value.NoHeadErr?
      ensures NamesConflict(err)
      ensures old(commits) <= commits && old(rebases) < rebases
      ensures old(g).tracking.Some? && Sticks(answers.rebase(old(rebases))) ==>
                LeftInTheMiddle(old(g).head, answers.rebase(old(rebases)), err)
      ensures forall result :: Finishes(old(g), old(rebases), forkPoint, result) ==>
                && err.None? && g.head == Some(result) && rebases == old(rebases) + 1 && commits == old(commits)
                && g.remote == After(old(g), answers.beforeRebase(old(rebases))).remote && committed == old(committed)
      ensures old(g).tracking.Some? && Collides(answers.rebase(old(rebases))) ==>
                g.rebasing.None? && Tells(answers.rebase(old(rebases)), g.head, g.tracking, err) && g.head == old(g).head
      ensures forall result :: FinishesCommitted(old(g), old(rebases), old(commits), forkPoint, result) ==>
                err.None? && g.head == Some(result) && rebases == old(rebases) + 2
    {
      err := RebaseOnto(forkPoint);
      if err == Some(DirtyErr) {
        err := Commit();
        if err.Some? {
          return;
        }
        forall result | FinishesCommitted(old(g), old(rebases), old(commits), forkPoint, result)
          ensures Finishes(g, rebases, forkPoint, result)
        {
        }
        err := RebaseOnto(forkPoint);
      }
    }

    /** How many pushes are rejected before one is taken, up to two. */
    function Tries(): nat {
      if answers.push(0).Taken? then 0 else if answers.push(1).Taken? then 1 else 2
    }

    /** The n-th push is rejected while nobody touches the remote, and the next one is due. */
    predicate Bounces(n: nat, fetch: nat, count: nat) {
      && answers.push(n) == Rejected(true) && answers.beforePush(n).Stay?
      && answers.fetch(fetch + n).Through? && answers.beforeFetch(fetch + n).Stay? && answers.count(count + n).Counted?
    }

    /** Nobody touches the remote and one of the three pushes is taken. */
    ghost predicate Lands(git: Git, rewritten: bool, fetch: nat, count: nat) {
      && !rewritten && git.remote.Some? && git.remote == git.tracking && Contains(git.head, git.remote) && git.head != git.remote
      && answers.push(Tries()).Taken? && answers.beforePush(Tries()).Stay?
      && (Tries() > 0 ==> Bounces(0, fetch, count)) && (Tries() > 1 ==> Bounces(1, fetch, count))
    }

    /** Pushes, taking in what others pushed meanwhile, at most three times. */
    method Push() returns (err: Option<Err>)
      requires WorkKept() && GitValid(g) && Aligned() && InTouch() && pushes == 0 && landed.None? && (forced ==> sawForced)
      modifies `g, `commits, `fetches, `counts, `rebases, `pushes, `ahead, `behind, `committed, `forced, `pulled, `dropped,
               `contact, `blind, `landed, `landedFrom, `sawForced
      ensures WorkKept() && GitValid(g) && g.head.Some? && 1 <= pushes <= PUSH_ATTEMPTS
      ensures err.None? ==> g.rebasing.None? && InTouch() && g.tracking == g.head
      ensures err.None? ==> if landed.Some? then ahead == landed.value && Counts(ahead, g.head, landedFrom) else ahead == 0
      ensures g.rebasing.Some? ==> err == Some(StatErr) || err == Some(AbortErr)
      ensures err.Some? ==> !err.value.NoHeadErr?
      ensures NamesConflict(err)
      ensures old(commits) <= commits && old(fetches) <= fetches && old(rebases) <= rebases
      ensures Lands(old(g), old(forced), old(fetches), old(counts)) ==>
                && err.None? && pushes == Tries() + 1 && g.head == g.remote == g.tracking == old(g).head && g.rebasing.None?
                && landed.Some? && landedFrom == old(g).tracking && rebases == old(rebases) && committed == old(committed)
    {
      var i := 1;
      while true
        invariant 1 <= i <= PUSH_ATTEMPTS && pushes == i - 1
        invariant WorkKept() && GitValid(g) && Aligned() && InTouch() && landed.None? && (forced ==> sawForced)
        invariant old(commits) <= commits && old(fetches) <= fetches && old(rebases) <= rebases
        invariant Lands(old(g), old(forced), old(fetches), old(counts)) ==>
                    && i <= Tries() + 1 && SamePlace(old(g)) && !forced && rebases == old(rebases) && committed == old(committed)
                    && fetches == old(fetches) + i - 1 && counts == old(counts) + i - 1
        decreases PUSH_ATTEMPTS - i
      {
        var done;
        done, err := TryPush(i);
        if done {
          return;
        }
        i := i + 1;
      }
    }

    /** One of the attempts; not done if it was rejected and the next one is due. */
    method TryPush(i: nat) returns (done: bool, err: Option<Err>)
      requires 1 <= i <= PUSH_ATTEMPTS && pushes == i - 1
      requires WorkKept() && GitValid(g) && Aligned() && InTouch() && landed.None? && (forced ==> sawForced)
      modifies `g, `commits, `fetches, `counts, `rebases, `pushes, `ahead, `behind, `committed, `forced, `pulled, `dropped,
               `contact, `blind, `landed, `landedFrom, `sawForced
      ensures WorkKept() && GitValid(g) && g.head.Some? && pushes == i && (forced ==> sawForced)
      ensures !done ==> err.None? && i < PUSH_ATTEMPTS && Aligned() && InTouch() && landed.None?
      ensures done && err.None? ==> g.rebasing.None? && InTouch() && g.tracking == g.head
      ensures done && err.None? ==> if landed.Some? then ahead == landed.value && Counts(ahead, g.head, landedFrom) else ahead == 0
      ensures g.rebasing.Some? ==> err == Some(StatErr) || err == Some(AbortErr)
      ensures err.Some? ==> !err.value.NoHeadErr?
      ensures NamesConflict(err)
      ensures old(commits) <= commits && old(fetches) <= fetches && old(rebases) <= rebases
      ensures answers.push(i - 1).Taken? && answers.beforePush(i - 1).Stay? && Contains(old(g).head, old(g).remote) ==>
                && done && err.None? && g.head == g.remote == g.tracking == old(g).head && landed.Some?
                && landedFrom == old(g).tracking && rebases == old(rebases) && committed == old(committed)
      ensures i < PUSH_ATTEMPTS && answers.push(i - 1) == Rejected(true) && answers.beforePush(i - 1).Stay?
              && KeepsPlace(old(g), old(forced), old(fetches), old(counts)) ==>
                && !done && SamePlace(old(g)) && !forced && rebases == old(rebases) && committed == old(committed)
                && fetches == old(fetches) + 1 && counts == old(counts) + 1
      ensures !done ==> g.head != g.tracking && answers.push(i - 1) != Rejected(false)
    {
      done := true;
      var outcome := PushOnce();
      if outcome == Accepted {
        return true, None;
      }
      if outcome == Fatal || i == PUSH_ATTEMPTS {
        return true, Some(OtherErr);
      }
      done, err := AfterReject();
      if !done && answers.push(i - 1).Rejected? && !answers.push(i - 1).slept {
        return true, Some(OtherErr);
      }
    }

    /** HEAD, tracking branch and remote branch are where they were. */
    ghost predicate SamePlace(git: Git)
      reads `g
    {
      g.head == git.head && g.tracking == git.tracking && g.remote == git.remote && g.rebasing == git.rebasing
    }

    /** A fetch that finds the remote as it was, behind HEAD, has nothing to take in. */
    ghost predicate KeepsPlace(git: Git, rewritten: bool, fetch: nat, count: nat) {
      && !rewritten && git.remote.Some? && git.remote == git.tracking && Contains(git.head, git.remote) && git.head != git.remote
      && answers.fetch(fetch).Through? && answers.beforeFetch(fetch).Stay? && answers.count(count).Counted?
    }

    /** After a rejected push: take in the remote's commits; done if that leaves nothing to push. */
    method AfterReject() returns (done: bool, err: Option<Err>)
      requires WorkKept() && GitValid(g) && g.rebasing.None? && g.head.Some? && (forced ==> sawForced)
      modifies `g, `commits, `fetches, `counts, `rebases, `ahead, `behind, `committed, `forced, `pulled, `dropped,
               `contact, `blind, `sawForced
      ensures WorkKept() && GitValid(g) && g.head.Some? && (forced ==> sawForced)
      ensures !done ==> err.None? && Aligned() && InTouch()
      ensures done && err.None? ==> g.rebasing.None? && InTouch() && g.tracking == g.head && ahead == 0
      ensures g.rebasing.Some? ==> err == Some(StatErr) || err == Some(AbortErr)
      ensures err.Some? ==> !err.value.NoHeadErr?
      ensures NamesConflict(err)
      ensures old(commits) <= commits && old(fetches) <= fetches && old(rebases) <= rebases
      ensures KeepsPlace(old(g), old(forced), old(fetches), old(counts)) ==>
                && SamePlace(old(g)) && !forced && fetches == old(fetches) + 1 && counts == old(counts) + 1
                && rebases == old(rebases) && committed == old(committed)
                && !done
      ensures !done ==> g.head != g.tracking
    {
      err := CatchUp();
      if err.Some? {
        return true, err;
      }
      EvenHeads(ahead, g.head, g.tracking);
      if ahead == 0 {
        return true, None;
      }
      return false, None;
    }

    /** Fetch and rebase again. */
    method CatchUp() returns (err: Option<Err>)
      requires WorkKept() && GitValid(g) && g.rebasing.None? && g.head.Some? && (forced ==> sawForced)
      modifies `g, `commits, `fetches, `counts, `rebases, `ahead, `behind, `committed, `forced, `pulled, `dropped,
               `contact, `blind, `sawForced
      ensures WorkKept() && GitValid(g) && g.head.Some? && (forced ==> sawForced)
      ensures err.None? ==> Aligned() && InTouch()
      ensures g.rebasing.Some? ==> err == Some(StatErr) || err == Some(AbortErr)
      ensures err.Some? ==> !err.value.NoHeadErr?
      ensures NamesConflict(err)
      ensures old(commits) <= commits && old(fetches) <= fetches && old(rebases) <= rebases
      ensures KeepsPlace(old(g), old(forced), old(fetches), old(counts)) ==>
                && SamePlace(old(g)) && !forced && fetches == old(fetches) + 1 && counts == old(counts) + 1
                && rebases == old(rebases) && committed == old(committed)
                && err.None?
    {
      err := Fetch();
      if err.Some? {
        return;
      }
      err := Rebase();
    }

    /** The conflict on record is between this HEAD and this upstream, as far as the queries answer. */
    ghost predicate Recognises(head: Option<Commit>, tracking: Option<Commit>) {
      && !force && Armed(prev) && tracking == prev.conflictUp
      && !answers.guard.lookupFails && !answers.guard.firstFails
      && prev.conflictHead.value in History(head)
      && (answers.guard.secondFails || prev.conflictUp.value !in History(head))
    }

    /** Is this the conflict already on record? Only a clear answer from git counts as yes. */
    method ConflictUnchanged() returns (same: bool)
      modifies `guardFault
      ensures same <==> Recognises(g.head, g.tracking)
      ensures guardFault ==> old(guardFault) || answers.guard.lookupFails || answers.guard.firstFails
      ensures !force && Armed(prev) && StillApart(g, prev) && g.tracking == prev.conflictUp && !old(guardFault) ==>
                && (same <==> !guardFault)
                && (guardFault <==> answers.guard.lookupFails || answers.guard.firstFails)
    {
      if force || !prev.conflict || prev.conflictHead.None? || prev.conflictUp.None? {
        return false;
      }
      if answers.guard.lookupFails || g.tracking != prev.conflictUp {
        guardFault := guardFault || answers.guard.lookupFails;
        return false;
      }
      if answers.guard.firstFails || prev.conflictHead.value !in History(g.head) {
        guardFault := guardFault || answers.guard.firstFails;
        return false;
      }
      return answers.guard.secondFails || prev.conflictUp.value !in History(g.head);
    }

    /** HEAD gets on top of a remote that stays where it is, and what is new gets pushed. */
    ghost predicate Arrives(git: Git, rewritten: bool, fetch: nat, count: nat, rebase: nat) {
      && Tops(git, rewritten, count, rebase) && git.remote == git.tracking
      && (Top(git, rewritten, rebase) != git.tracking ==>
            Lands(git.(head := Top(git, rewritten, rebase)), false, fetch, CountsAfter(git, rewritten, count)))
    }

    /** HEAD, tracking branch and remote are the same, and `pushed` is what the remote gained. */
    ghost predicate Arrived(top: Option<Commit>, remote: Option<Commit>, err: Option<Err>)
      reads `g, `pushed
    {
      err.None? && g.head == g.remote == g.tracking == top && g.rebasing.None? && Counts(pushed, top, remote)
    }

    /** A rebase is called for and stops on conflicts. */
    ghost predicate CollidesOn(git: Git, rewritten: bool, count: nat, rebase: nat) {
      answers.count(count).Counted? && git.tracking.Some? && Moves(git, rewritten) && Collides(answers.rebase(rebase))
    }

    /** Rebase and push: HEAD ends up equal to the remote as last seen. */
    method Integrate() returns (err: Option<Err>)
      requires WorkKept() && GitValid(g) && g.rebasing.None? && g.head.Some? && (forced ==> sawForced)
      requires InTouch() && pushes == 0 && landed.None? && pushed == 0
      modifies `g, `commits, `fetches, `counts, `rebases, `pushes, `ahead, `behind, `committed, `forced, `pulled, `dropped,
               `pushed, `contact, `blind, `landed, `landedFrom, `sawForced
      ensures WorkKept() && GitValid(g) && g.head.Some? && pushes <= PUSH_ATTEMPTS
      ensures err.None? ==> g.rebasing.None? && (contact == g.head <==> !blind)
      ensures err.None? ==> if landed.Some? then Counts(pushed, g.head, landedFrom) else pushed == 0
      ensures g.rebasing.Some? ==> err == Some(StatErr) || err == Some(AbortErr)
      ensures err.Some? ==> !err.value.NoHeadErr?
      ensures NamesConflict(err)
      ensures old(commits) <= commits && old(fetches) <= fetches
      ensures answers.count(old(counts)).Counted? && !old(forced) && old(g).head == old(g).tracking ==>
                && err.None? && g == old(g) && rebases == old(rebases) && pushes == 0
                && contact == old(contact) && blind == old(blind)
      ensures answers.count(old(counts)).Counted? && !Contains(old(g).head, old(g).tracking) ==> old(rebases) < rebases
      ensures answers.count(old(counts)).Counted? && !Contains(old(g).head, old(g).tracking) && Sticks(answers.rebase(old(rebases))) ==>
                LeftInTheMiddle(old(g).head, answers.rebase(old(rebases)), err)
      ensures Arrives(old(g), old(forced), old(fetches), old(counts), old(rebases)) ==>
                Arrived(Top(old(g), old(forced), old(rebases)), old(g).tracking, err) && committed == old(committed)
      ensures CollidesOn(old(g), old(forced), old(counts), old(rebases)) ==>
                g.head == old(g).head && g.rebasing.None? && Tells(answers.rebase(old(rebases)), g.head, g.tracking, err)
    {
      err := Rebase();
      if err.None? {
        err := PushAhead();
      }
    }

    /** Pushes what HEAD has on top of the tracking branch, if anything. */
    method PushAhead() returns (err: Option<Err>)
      requires WorkKept() && GitValid(g) && Aligned() && (forced ==> sawForced)
      requires InTouch() && pushes == 0 && landed.None? && pushed == 0
      modifies `g, `commits, `fetches, `counts, `rebases, `pushes, `ahead, `behind, `committed, `forced, `pulled, `dropped,
               `pushed, `contact, `blind, `landed, `landedFrom, `sawForced
      ensures WorkKept() && GitValid(g) && g.head.Some? && pushes <= PUSH_ATTEMPTS
      ensures err.None? ==> g.rebasing.None? && (contact == g.head <==> !blind)
      ensures err.None? ==> if landed.Some? then Counts(pushed, g.head, landedFrom) else pushed == 0
      ensures g.rebasing.Some? ==> err == Some(StatErr) || err == Some(AbortErr)
      ensures err.Some? ==> !err.value.NoHeadErr?
      ensures NamesConflict(err)
      ensures old(commits) <= commits && old(fetches) <= fetches && old(rebases) <= rebases
      ensures old(g).head == old(g).tracking ==>
                && err.None? && g == old(g) && rebases == old(rebases) && pushes == 0 && committed == old(committed)
                && contact == old(contact) && blind == old(blind) && Counts(pushed, g.head, old(g).tracking)
      ensures Lands(old(g), old(forced), old(fetches), old(counts)) ==>
                Arrived(old(g).head, old(g).tracking, err) && committed == old(committed)
    {
      EvenHeads(ahead, g.head, g.tracking);
      if ahead > 0 {
        err := Push();
        if err.Some? {
          return;
        }
        pushed := ahead;
        ahead := 0;
      } else {
        err := None;
      }
    }

    /** The recorded conflict stands as far as the local side goes, and nobody asked to retry it. */
    ghost predicate Parked(git: Git) {
      !force && Armed(prev) && StillApart(git, prev)
    }

    /** Neither the upstream moved nor a query of the conflict check failed. */
    ghost predicate Undisturbed()
      reads `fetched, `guardFault
    {
      !guardFault && (fetched.Some? ==> fetched.value == prev.conflictUp)
    }

    /** The remote branch that the fetch of a run finds. */
    function Found(git: Git, commit: nat, fetch: nat): Option<Commit> {
      FoundBy(answers, git, commit, fetch)
    }

    /** The commit found nothing, and the fetch got through and found this remote branch. */
    ghost predicate Reaches(git: Git, commit: nat, fetch: nat, remote: Option<Commit>) {
      && answers.commit(commit).Clean?
      && GetsThrough(answers.fetch(fetch), git.tracking, remote)
      && remote == Found(git, commit, fetch)
    }

    /** A fetch that gets through to an existing branch leaves the tracking branch there. */
    ghost predicate FetchesTo(git: Git, commit: nat, fetch: nat, tracking: Option<Commit>) {
      answers.fetch(fetch).Through? && (Found(git, commit, fetch).Some? ==> tracking == Found(git, commit, fetch))
    }

    /** The commit goes through and so does the fetch, to a branch that exists. */
    predicate SeesRemote(git: Git, commit: nat, fetch: nat) {
      CommitGoes(git, answers.commit(commit)) && answers.fetch(fetch).Through? && Found(git, commit, fetch).Some?
    }

    /** The clone after them. */
    function Seen(git: Git, commit: nat, fetch: nat): Git {
      var found := Found(git, commit, fetch);
      git.(head := Committed(git.head, answers.commit(commit)), tracking := found, remote := found,
           published := git.published + History(found))
    }

    /** How a run goes when its commit and fetch do. */
    ghost predicate GoesOn(git: Git, commit: nat, fetch: nat, count: nat, err: Option<Err>)
      reads `g, `guarded, `pushed, `committed
    {
      SeesRemote(git, commit, fetch) ==>
        var seen, rewritten := Seen(git, commit, fetch), Rewritten(git.tracking, Found(git, commit, fetch));
        && (guarded <==> Recognises(seen.head, seen.tracking))
        && (!guarded && Arrives(seen, rewritten, fetch + 1, count, 0) ==>
              Arrived(Top(seen, rewritten, 0), seen.tracking, err)
              && (answers.commit(commit).Made? ==> committed && answers.commit(commit).patch in Patches(History(g.remote))))
        && (!guarded && CollidesOn(seen, rewritten, count, 0) ==>
              g.head == seen.head && g.rebasing.None? && Tells(answers.rebase(0), g.head, g.tracking, err))
    }

    /** What every run keeps and promises, whatever it meets. */
    ghost predicate RunOk(err: Option<Err>)
      reads `g, `sawForced, `pushes, `contact, `blind, `landed, `landedFrom, `pushed, `guarded, `rebases, `guardFault
    {
      && WorkKept() && GitValid(g) && g.head.Some? && pushes <= PUSH_ATTEMPTS
      && (err.None? && !guarded ==>
            && g.rebasing.None? && (contact == g.head <==> !blind)
            && if landed.Some? then Counts(pushed, g.head, landedFrom) else pushed == 0)
      && (g.rebasing.Some? ==> err == Some(StatErr) || err == Some(AbortErr))
      && (err.Some? ==> !err.value.NoHeadErr?) && NamesConflict(err)
      && (guarded ==> err.None? && !force && Armed(prev) && rebases == pushes == 0)
      && (guardFault ==> answers.guard.lookupFails || answers.guard.firstFails)
    }

    /** Commit, fetch, guard, and unless the guard holds, rebase and push. */
    method Run() returns (err: Option<Err>)
      requires WorkKept() && GitValid(g) && g.rebasing.None? && g.head.Some? && !forced && !sawForced
      requires pushes == rebases == 0 && landed.None? && !guardFault && fetched.None? && !guarded && pushed == 0
      modifies `g, `commits, `fetches, `counts, `rebases, `pushes, `ahead, `behind, `committed, `forced, `pulled, `dropped,
               `pushed, `guarded, `contact, `blind, `landed, `landedFrom, `sawForced, `fetched, `guardFault
      ensures RunOk(err)
      ensures err.None? ==> commits > old(commits) && fetches > old(fetches) && fetched.Some?
      ensures fetched.Some? ==> FetchesTo(old(g), old(commits), old(fetches), fetched.value)
      ensures Parked(old(g)) && Undisturbed() ==>
                && rebases == pushes == 0 && Parked(g) && (err.None? ==> guarded)
                && (err.Some? ==> !err.value.ConflictErr?)
      ensures Parked(old(g)) && !Undisturbed() ==> !guarded
      ensures ParkedAgain(old(g), old(commits), old(fetches), old(counts), err)
      ensures IdleChangesNothing(old(g), old(commits), old(fetches), old(counts), err)
      ensures StuckIsLeft(old(g), old(commits), old(fetches), old(counts), err)
      ensures GoesOn(old(g), old(commits), old(fetches), old(counts), err)
      ensures guarded ==> Recognises(g.head, g.tracking)
    {
      err := CommitAndFetch();
      if err.None? {
        err := CheckAndIntegrate();
      }
      if SeesRemote(old(g), old(commits), old(fetches)) {
        MadeArrives(old(g), old(commits), old(fetches), old(counts));
      }
    }

    /** What was just committed is part of what HEAD comes to be, whether or not that takes a rebase. */
    lemma MadeArrives(git: Git, commit: nat, fetch: nat, count: nat)
      requires SeesRemote(git, commit, fetch)
      ensures var seen, rewritten := Seen(git, commit, fetch), Rewritten(git.tracking, Found(git, commit, fetch));
              answers.commit(commit).Made? && Tops(seen, rewritten, count, 0) ==>
                answers.commit(commit).patch in Patches(History(Top(seen, rewritten, 0)))
    {
      if answers.commit(commit).Made? {
        var patch := answers.commit(commit).patch;
        NewCommitHolds(git.head, patch);
        var c := NewCommit(git.head, patch);
        assert c in Reach(c) && !IsMerge(c);
        var found := Found(git, commit, fetch);
        var seen := Seen(git, commit, fetch);
        var top := Top(seen, Rewritten(git.tracking, found), 0);
        if c in History(found) && top.Some? && found.value in Reach(top.value) {
          ReachTransitive(found.value, top.value);
          assert c in History(top);
        }
      }
    }

    /** The conflict check, and unless it finds the known conflict, rebase and push. */
    method CheckAndIntegrate() returns (err: Option<Err>)
      requires WorkKept() && GitValid(g) && g.rebasing.None? && g.head.Some? && (forced ==> sawForced) && InTouch()
      requires pushes == rebases == 0 && landed.None? && !guardFault && fetched.None? && !guarded && pushed == 0
      modifies `g, `commits, `fetches, `counts, `rebases, `pushes, `ahead, `behind, `committed, `forced, `pulled, `dropped,
               `pushed, `guarded, `contact, `blind, `landed, `landedFrom, `sawForced, `fetched, `guardFault
      ensures RunOk(err) && old(commits) <= commits && old(fetches) <= fetches && fetched == Some(old(g).tracking)
      ensures Parked(old(g)) && Undisturbed() ==> guarded && g == old(g)
      ensures Parked(old(g)) && !Undisturbed() ==> !guarded
      ensures Parked(old(g)) && old(g).tracking == prev.conflictUp ==> MeetsGuard(old(counts))
      ensures !Armed(prev) && answers.count(old(counts)).Counted? && !old(forced) && old(g).head == old(g).tracking ==>
                && err.None? && !guarded && g == old(g) && rebases == pushes == 0
                && contact == old(contact) && blind == old(blind)
      ensures (&& !Armed(prev) && answers.count(old(counts)).Counted? && !Contains(old(g).head, old(g).tracking)
               && Sticks(answers.rebase(0))) ==> LeftInTheMiddle(old(g).head, answers.rebase(0), err)
      ensures guarded <==> Recognises(old(g).head, old(g).tracking)
      ensures guarded ==> g == old(g)
      ensures !guarded && Arrives(old(g), old(forced), old(fetches), old(counts), 0) ==>
                Arrived(Top(old(g), old(forced), 0), old(g).tracking, err) && committed == old(committed)
      ensures !guarded && CollidesOn(old(g), old(forced), old(counts), 0) ==>
                g.head == old(g).head && g.rebasing.None? && Tells(answers.rebase(0), g.head, g.tracking, err)
    {
      fetched := Some(g.tracking);
      var same := ConflictUnchanged();
      if same {
        guarded := true;
        return None;
      }
      err := Integrate();
    }

    /** The guard holds, or a query of it fails and a rebase follows. */
    ghost predicate MeetsGuard(count: nat)
      reads `guarded, `rebases
    {
      if answers.guard.lookupFails || answers.guard.firstFails
      then !guarded && (answers.count(count).Counted? ==> rebases > 0)
      else guarded
    }

    /** What a parked conflict meets when the fetch finds its upstream: the guard, or a failing query and then a rebase. */
    ghost predicate ParkedAgain(git: Git, commit: nat, fetch: nat, count: nat, err: Option<Err>)
      reads `guarded, `rebases
    {
      Parked(git) && Reaches(git, commit, fetch, prev.conflictUp) ==> MeetsGuard(count) && (guarded ==> err.None?)
    }

    /** Nothing to commit, nothing recorded, and a fetch that leaves HEAD and tracking branch where they were, together. */
    ghost predicate IdleRun(git: Git, commit: nat, fetch: nat, count: nat) {
      && git.head == git.tracking && !Armed(prev) && answers.count(count).Counted?
      && (Reaches(git, commit, fetch, git.head) || Reaches(git, commit, fetch, None))
    }

    /** Nothing recorded, and a rebase on a new upstream that sticks leaves the clone in the middle. */
    ghost predicate StuckIsLeft(git: Git, commit: nat, fetch: nat, count: nat, err: Option<Err>)
      reads `g
    {
      (&& !Armed(prev) && answers.count(count).Counted? && Sticks(answers.rebase(0))
       && Found(git, commit, fetch).Some? && Reaches(git, commit, fetch, Found(git, commit, fetch))
       && !Contains(git.head, Found(git, commit, fetch))) ==> LeftInTheMiddle(git.head, answers.rebase(0), err)
    }

    method CommitAndFetch() returns (err: Option<Err>)
      requires WorkKept() && GitValid(g) && g.rebasing.None? && g.head.Some? && !forced
      modifies `g, `commits, `fetches, `committed, `forced, `contact, `blind, `sawForced
      ensures WorkKept() && GitValid(g) && g.head.Some? && g.rebasing.None?
      ensures err.None? ==> InTouch() && contact == g.remote && (forced ==> sawForced)
      ensures err.Some? ==> err.value == OtherErr || err.value == OfflineErr || err.value == PreflightErr
      ensures Parked(old(g)) ==> Parked(g)
      ensures old(commits) < commits && (err.None? ==> old(fetches) < fetches && FetchesTo(old(g), old(commits), old(fetches), g.tracking))
      ensures forall remote :: Reaches(old(g), old(commits), old(fetches), remote) ==>
                && err.None? && g.remote == remote && g.head == old(g).head
                && g.tracking == (if remote.Some? then remote else old(g).tracking)
                && blind == (remote.None? && old(g).tracking.Some?)
                && forced == Rewritten(old(g).tracking, remote)
      ensures SeesRemote(old(g), old(commits), old(fetches)) ==>
                && err.None? && g == Seen(old(g), old(commits), old(fetches)) && fetches == old(fetches) + 1
                && forced == Rewritten(old(g).tracking, g.tracking)
                && committed == (old(committed) || answers.commit(old(commits)).Made?)
    {
      err := Commit();
      if err.Some? {
        return;
      }
      err := Fetch();
    }

    // ---------- The whole run ----------

    /** The checks before a run. During a rebase HEAD is detached, so a failed stat is caught by the next check. */
    method Preflight() returns (err: Option<Err>)
      modifies `preflights
      ensures preflights == old(preflights) + 1
      ensures err.None? <==> Passes(answers.preflight(old(preflights))) && g.rebasing.None? && g.head.Some?
      ensures var a := answers.preflight(old(preflights));
              err == Some(NoHeadErr) <==> !a.locateFails && !a.merging && !a.detached && g.rebasing.None? && g.head.None?
      ensures var a := answers.preflight(old(preflights));
              err.Some? && err != Some(NoHeadErr) ==>
                err.value == if a.environment && (a.locateFails || (g.rebasing.None? && !a.merging && !a.detached && a.readFails))
                             then OtherErr else PreflightErr
    {
      var a := answers.preflight(preflights);
      preflights := preflights + 1;
      if a.locateFails {
        return Some(if a.environment then OtherErr else PreflightErr);
      }
      if g.rebasing.Some? && !a.statFails {
        return Some(PreflightErr);
      }
      if a.merging {
        return Some(PreflightErr);
      }
      if g.rebasing.Some? || a.detached {
        return Some(PreflightErr);
      }
      if g.head.None? {
        return Some(NoHeadErr);
      }
      if a.readFails {
        return Some(if a.environment then OtherErr else PreflightErr);
      }
      return if a.noUpstream then Some(PreflightErr) else None;
    }

    /** Preflight, with a first commit on an unborn branch that already has an upstream. */
    method Prepare() returns (err: Option<Err>)
      requires WorkKept() && GitValid(g) && !committed && preflights == 0
      modifies `g, `commits, `committed, `preflights
      ensures WorkKept() && GitValid(g) && g.rebasing == old(g).rebasing
      ensures err.None? ==> g.rebasing.None? && g.head.Some?
      ensures old(g).rebasing.Some? ==> err.Some? && commits == old(commits) && g == old(g)
      ensures old(g).head.Some? ==>
                && g == old(g) && commits == old(commits)
                && (err.None? <==> Passes(answers.preflight(0)) && g.rebasing.None?)
      ensures err.Some? ==> err.value == PreflightErr || err.value == NoHeadErr || err.value == OtherErr
      ensures var a := answers.preflight(0);
              (!a.locateFails && !a.merging && !a.detached && old(g).rebasing.None? && old(g).head.None? && answers.configured
               && answers.commit(old(commits)).Made? && CommitGoes(old(g), answers.commit(old(commits)))) ==>
                && committed && g.head == Committed(old(g).head, answers.commit(old(commits)))
                && (err.None? <==> Passes(answers.preflight(1)))
      ensures old(g).head.Some? ==> committed == old(committed)
      ensures !answers.configured ==> g == old(g) && commits == old(commits)
      ensures err != Some(NoHeadErr) && old(g).head.None? && answers.commit(old(commits)).Clean? ==> commits == old(commits)
    {
      err := Preflight();
      if err != Some(NoHeadErr) || !answers.configured {
        return;
      }
      var failed := Commit();
      if failed.Some? {
        return failed;
      }
      if !committed {
        return;
      }
      err := Preflight();
    }

    /** The status tells what kind of failure it was; the scheduler goes by it. */
    ghost predicate StatusTells(err: Err)
      reads `st
    {
      match err
      case ConflictErr(_, _, _) => st.status == Conflicted
      case OfflineErr => st.status == OfflineStatus
      case PreflightErr => st.status == PreflightFailed
      case NoHeadErr => st.status == PreflightFailed
      case _ => st.status == Error
    }

    /** Records a failure; a conflict is announced only when it is new. */
    method Fail(err: Err)
      modifies `st, `conflictEvents
      ensures err.ConflictErr? ==>
                && st == MarkConflict(SetConflictRefs(old(st), err.head, err.up), err.files)
                && conflictEvents == old(conflictEvents) + if IsNew(err.files) then 1 else 0
      ensures !err.ConflictErr? ==> conflictEvents == old(conflictEvents) && st == old(st).(status := st.status)
      ensures StatusTells(err)
    {
      match err {
        case ConflictErr(files, head, up) =>
          st := MarkConflict(SetConflictRefs(st, head, up), files);
          if IsNew(files) {
            conflictEvents := conflictEvents + 1;
          }
        case PreflightErr => st := st.(status := PreflightFailed);
        case NoHeadErr => st := st.(status := PreflightFailed);
        case OfflineErr => st := st.(status := OfflineStatus);
        case _ => st := st.(status := Error);
      }
    }

    predicate IsNew(files: seq<string>) {
      !prev.conflict || prev.conflictFiles != files || force
    }

    /** The state a run's last write starts from: marked syncing, and written by a command meanwhile. */
    function Midway(): RepoState {
      Commanded(MarkSyncing(prev), answers.commands)
    }

    /** A full run that succeeds is in line with the remote as last seen. */
    ghost predicate InLine(err: Option<Err>)
      reads this
    {
      && (err.None? ==> commits > 0 && fetches > 0 && fetched.Some?)
      && (err.None? && !guarded ==>
            && g.rebasing.None? && g.head.Some? && (contact == g.head <==> !blind) && st == MarkSuccess(Midway())
            && st.status == OK && !st.conflict && st.conflictHead.None? && st.conflictUp.None?
            && if landed.Some? then Counts(pushed, g.head, landedFrom) else pushed == 0)
    }

    ghost predicate GuardKept(err: Option<Err>)
      reads this
    {
      guarded ==>
        && err.None? && rebases == pushes == conflictEvents == 0 && st == MarkConflict(Midway(), prev.conflictFiles)
        && !force && Armed(prev) && prev.conflictHead.value in History(g.head)
        && (answers.guard.secondFails || prev.conflictUp.value !in History(g.head))
    }

    /** A conflict is recorded with its refs and announced if new; any other error only sets the status. */
    ghost predicate Reported(err: Option<Err>)
      reads this
    {
      err.Some? && !interrupted ==>
        StatusTells(err.value) &&
        if err.value.ConflictErr?
        then st == MarkConflict(SetConflictRefs(Midway(), err.value.head, err.value.up), err.value.files)
             && conflictEvents == if !prev.conflict || prev.conflictFiles != err.value.files || force then 1 else 0
        else conflictEvents == 0 && st == Midway().(status := st.status)
    }

    /** A cancelled run takes back the status it set itself, and tells nobody. */
    ghost predicate Withdrawn(err: Option<Err>)
      reads this
    {
      interrupted ==>
        && err.Some? && answers.cancelled && conflictEvents == 0 && st == Restored(Midway(), prev.status)
        && (answers.commands == [] ==> st == prev)
    }

    /** A run that leaves a rebase unfinished says so. */
    ghost predicate UnfinishedIsReported(err: Option<Err>)
      reads this
    {
      g.rebasing.Some? && origin.rebasing.None? ==>
        (err == Some(StatErr) || err == Some(AbortErr)) && (!interrupted ==> st.status == Error)
    }

    /** An up-to-date clone stays as it is; a vanished remote branch that cannot be looked up goes unnoticed. */
    ghost predicate IdleChangesNothing(git: Git, commit: nat, fetch: nat, count: nat, err: Option<Err>)
      reads `g, `guarded, `rebases, `pushes, `contact, `blind
    {
      IdleRun(git, commit, fetch, count) ==>
        && err.None? && !guarded && rebases == pushes == 0 && g.head == git.head
        && g.remote == Found(git, commit, fetch)
        && contact == g.remote && blind == g.remote.None?
    }

    ghost predicate ParkedIfUndisturbed(git: Git, err: Option<Err>)
      reads this
    {
      Parked(git) && Undisturbed() ==>
        rebases == pushes == conflictEvents == 0 && Parked(g) && RefsStay() && (err.None? && fetched.Some? ==> guarded)
    }


    /** What every call keeps and promises, full or local-only, whatever it meets. */
    ghost predicate Sound(err: Option<Err>)
      reads this
    {
      && WorkKept() && GitValid(g) && pushes <= 3 && UnfinishedIsReported(err)
      && (interrupted ==> answers.cancelled) && NewlyParked(err) && ParkedIfUndisturbed(origin, err)
      && (origin.head.Some? && QuietAnswers(answers, origin, 0, 0, prev.conflictUp) ==> Undisturbed())
    }

    /** What a full run promises on top of that, on each of its exits. */
    ghost predicate Ends(err: Option<Err>)
      reads this
    {
      && InLine(err) && GuardKept(err)
      && (err.Some? && !err.value.ConflictErr? ==> conflictEvents == 0 && SameConflict(st, prev))
      && (err.Some? && !interrupted ==> StatusTells(err.value))
    }

    /** How a run goes that gets past its preflight. */
    ghost predicate Goes(err: Option<Err>)
      reads this
    {
      && Reported(err) && Withdrawn(err) && ParkedAgain(origin, 0, 0, 0, err) && IdleChangesNothing(origin, 0, 0, 0, err)
      && StuckIsLeft(origin, 0, 0, 0, err) && GoesOn(origin, 0, 0, 0, err)
    }

    /** The part of a full run after a successful preflight. */
    method FullRun() returns (err: Option<Err>)
      requires WorkKept() && GitValid(g) && g.rebasing.None? && g.head.Some? && !forced && !sawForced && st == prev
      requires pushes == rebases == 0 && landed.None? && !guardFault && fetched.None? && !guarded && pushed == 0
      requires conflictEvents == fetches == counts == 0 && !interrupted
      requires origin.rebasing.None? && (origin.head.Some? ==> g == origin && commits == 0 && !committed)
      modifies `g, `st, `conflictEvents, `commits, `fetches, `counts, `rebases, `pushes, `ahead, `behind, `committed,
               `forced, `pulled, `dropped, `pushed, `guarded, `contact, `blind, `landed, `landedFrom, `sawForced,
               `fetched, `guardFault, `interrupted
      ensures Sound(err) && Ends(err) && (origin.head.Some? ==> Goes(err))
    {
      st := MarkSyncing(st);
      err := RunReady();
      Finish(err);
    }

    /** The end of a full run: what it did and what its last write says belong together. */
    method Finish(err: Option<Err>)
      requires RunOk(err) && LeavesParked(err) && (guarded ==> Recognises(g.head, g.tracking))
      requires err.None? ==> commits > 0 && fetches > 0 && fetched.Some?
      requires st == MarkSyncing(prev) && conflictEvents == 0 && !interrupted
      modifies `st, `conflictEvents, `interrupted
      ensures Ends(err) && Reported(err) && Withdrawn(err) && UnfinishedIsReported(err)
      ensures NewlyParked(err) && ParkedIfUndisturbed(origin, err)
    {
      Conclude(err);
    }

    /** A run finds the conflict parked and undisturbed: it leaves it alone. */
    ghost predicate LeavesParked(err: Option<Err>)
      reads `g, `guarded, `rebases, `pushes, `fetched, `guardFault
    {
      Parked(origin) && Undisturbed() ==>
        && rebases == pushes == 0 && Parked(g) && (err.None? ==> guarded)
        && (err.Some? ==> !err.value.ConflictErr?)
    }

    /** Run, told from where the whole call started. */
    method RunReady() returns (err: Option<Err>)
      requires WorkKept() && GitValid(g) && g.rebasing.None? && g.head.Some? && !forced && !sawForced
      requires pushes == rebases == 0 && landed.None? && !guardFault && fetched.None? && !guarded && pushed == 0
      requires fetches == counts == 0 && (origin.head.Some? ==> g == origin && commits == 0 && !committed)
      modifies `g, `commits, `fetches, `counts, `rebases, `pushes, `ahead, `behind, `committed, `forced, `pulled, `dropped,
               `pushed, `guarded, `contact, `blind, `landed, `landedFrom, `sawForced, `fetched, `guardFault
      ensures RunOk(err) && LeavesParked(err) && (guarded ==> Recognises(g.head, g.tracking))
      ensures err.None? ==> commits > 0 && fetches > 0 && fetched.Some?
      ensures origin.head.Some? && QuietAnswers(answers, origin, 0, 0, prev.conflictUp) ==> Undisturbed()
      ensures origin.head.Some? ==>
                && ParkedAgain(origin, 0, 0, 0, err) && IdleChangesNothing(origin, 0, 0, 0, err)
                && StuckIsLeft(origin, 0, 0, 0, err) && GoesOn(origin, 0, 0, 0, err)
    {
      err := Run();
    }

    /** The last write of a full run. */
    method Conclude(err: Option<Err>)
      requires st == MarkSyncing(prev) && conflictEvents == 0 && !interrupted && (guarded ==> err.None?)
      modifies `st, `conflictEvents, `interrupted
      ensures Reported(err) && Withdrawn(err)
      ensures SameConflict(Midway(), prev)
      ensures err.None? ==>
                && conflictEvents == 0 && !interrupted
                && st == if guarded then MarkConflict(Midway(), prev.conflictFiles) else MarkSuccess(Midway())
      ensures err.Some? && !err.value.ConflictErr? ==>
                conflictEvents == 0 && SameConflict(st, prev)
    {
      CommandsKeepConflict(st, answers.commands);
      st := Commanded(st, answers.commands);
      if err.Some? {
        if answers.cancelled {
          interrupted := true;
          st := Restored(st, prev.status);
          return;
        }
        Fail(err.value);
        return;
      }
      if guarded {
        st := MarkConflict(st, prev.conflictFiles);
        return;
      }
      st := MarkSuccess(st);
    }

    ghost predicate RefsStay()
      reads `st
    {
      st.conflict && st.conflictHead == prev.conflictHead && st.conflictUp == prev.conflictUp
    }

    /** A local-only run only commits. */
    method RunLocal(prepared: Option<Err>) returns (err: Option<Err>)
      requires WorkKept() && GitValid(g) && (prepared.None? ==> g.rebasing.None?) && st == prev && !interrupted
      requires fetched.None? && !guardFault && !guarded && rebases == pushes == conflictEvents == 0
      requires g.rebasing == origin.rebasing && (origin.head.Some? ==> g == origin)
      requires prepared.Some? ==> !prepared.value.ConflictErr?
      modifies `g, `st, `commits, `committed
      ensures Sound(err) && g.rebasing == old(g).rebasing
      ensures prepared.Some? ==> err == prepared && g == old(g) && commits == old(commits)
      ensures st == Commanded(prev, answers.commands)
      ensures prepared.None? && CommitGoes(old(g), answers.commit(old(commits))) ==>
                && err.None? && g.head == Committed(old(g).head, answers.commit(old(commits)))
                && committed == (old(committed) || answers.commit(old(commits)).Made?)
                && (answers.commit(old(commits)).Made? ==> answers.commit(old(commits)).patch in Patches(History(g.head)))
      ensures committed == (old(committed) || g.head != old(g).head) && History(old(g).head) <= History(g.head)
    {
      err := prepared;
      if err.None? {
        err := Commit();
      }
      CommandsKeepConflict(st, answers.commands);
      st := Commanded(st, answers.commands);
    }

    /** A run that does not get past its preflight. */
    method FailEarly(err: Err)
      requires WorkKept() && GitValid(g) && st == prev && !err.ConflictErr? && !interrupted
      requires fetched.None? && !guardFault && !guarded && rebases == pushes == conflictEvents == 0
      requires g.rebasing == origin.rebasing && (origin.head.Some? ==> g == origin)
      modifies `st, `conflictEvents, `interrupted
      ensures Sound(Some(err)) && Ends(Some(err))
      ensures conflictEvents == 0 && st == Commanded(prev, answers.commands).(status := st.status)
      ensures interrupted == answers.cancelled && (interrupted ==> st == Commanded(prev, answers.commands))
    {
      CommandsKeepConflict(st, answers.commands);
      st := Commanded(st, answers.commands);
      if answers.cancelled {
        interrupted := true;
        return;
      }
      Fail(err);
    }

    /** The branch is unborn but configured, and there is something to commit. */
    ghost predicate FirstCommitGoes() {
      var a := answers.preflight(0);
      && !a.locateFails && !a.merging && !a.detached && origin.rebasing.None? && origin.head.None? && answers.configured
      && answers.commit(0).Made? && CommitGoes(origin, answers.commit(0))
    }

    /** The repo is on a branch with an upstream, so that the run gets past its preflight. */
    ghost predicate Ready() {
      Passes(answers.preflight(0)) && origin.head.Some? && origin.rebasing.None?
    }

    /** One call of the sync function. */
    method AutoSync(localOnly: bool) returns (err: Option<Err>)
      requires Unstarted() && GitValid(g)
      modifies this
      ensures Sound(err) && (!localOnly ==> Ends(err)) && (!localOnly && Ready() ==> Goes(err))
      ensures origin.rebasing.Some? ==> err.Some? && g == origin && commits == fetches == rebases == pushes == 0
      ensures localOnly ==>
                && fetches == rebases == pushes == conflictEvents == 0 && !guarded && !interrupted
                && st == Commanded(prev, answers.commands)
      ensures localOnly && Ready() && CommitGoes(origin, answers.commit(0)) ==>
                && err.None? && g.head == Committed(origin.head, answers.commit(0)) && committed == answers.commit(0).Made?
                && (answers.commit(0).Made? ==> answers.commit(0).patch in Patches(History(g.head)))
      ensures localOnly && FirstCommitGoes() ==> g.head.Some? && committed
    {
      err := Prepare();
      if localOnly {
        err := RunLocal(err);
      } else if err.Some? {
        FailEarly(err.value);
      } else {
        err := FullRun();
      }
    }

    /** A conflict just recorded is recognised by the next run if and only if HEAD lacks the upstream. */
    ghost predicate NewlyParked(err: Option<Err>)
      reads `g, `st, `interrupted
    {
      err.Some? && err.value.ConflictErr? && !interrupted && err.value.head.Some? && err.value.up.Some? ==>
        && Armed(st) && st.conflictHead == err.value.head && st.conflictUp == err.value.up
        && (StillApart(g, st) <==> err.value.up.value !in History(g.head))
    }
  }

  // ---------- Sequences of runs ----------

  /** The queries of the conflict check answer, and a fetch that gets through finds the upstream where it was. */
  ghost predicate QuietAnswers(a: Answers, git: Git, commit: nat, fetch: nat, up: Option<Commit>) {
    && !a.guard.lookupFails && !a.guard.firstFails && up.Some?
    && (a.fetch(fetch).Through? ==> FoundBy(a, git, commit, fetch) == up)
  }

  /** What one run found, what it left and what it did. */
  datatype RunRecord = RunRecord(
    before: Git, prev: RepoState, after: Git, st: RepoState, err: Option<Err>, guarded: bool,
    commits: nat, fetches: nat, rebases: nat, pushes: nat, conflictEvents: nat
  )

  /**
   What may happen between two runs: others move the remote, the user commits up to `tip` without
   taking the upstream in, anyone writes other parts of the state, and the daemon may restart.
   */
  datatype Pause = Pause(others: Others, tip: Commit, status: Status, paused: bool, restart: bool)

  function Grown(g: Git, st: RepoState, pause: Pause): Git {
    var g := After(g, pause.others);
    if g.rebasing.None? && History(g.head) <= Reach(pause.tip)
       && !(st.conflictUp.Some? && st.conflictUp.value in Reach(pause.tip))
    then g.(head := Some(pause.tip)) else g
  }

  function Reentered(st: RepoState, pause: Pause): RepoState {
    var written := st.(status := pause.status, paused := pause.paused);
    if pause.restart then Restarted(written) else written
  }

  datatype Round = Round(pause: Pause, localOnly: bool, answers: Answers)

  lemma PauseKeepsParked(g: Git, st: RepoState, pause: Pause)
    requires Armed(st) && StillApart(g, st)
    ensures Armed(Reentered(st, pause)) && StillApart(Grown(g, st, pause), Reentered(st, pause))
    ensures Reentered(st, pause).conflictHead == st.conflictHead && Reentered(st, pause).conflictUp == st.conflictUp
  {
    LoadRestores(st.(status := pause.status, paused := pause.paused), FreshEntry);
  }

  /**
   Unforced runs after a recorded conflict, one after the other, full or local-only, failing or cancelled
   at any point. As long as each is quiet, nothing is rebased or pushed, nobody is told again, and the
   recorded refs stay; and a full run that does not fail on the way ends at the guard.
   */
  method ParkedRuns(start: Git, recorded: RepoState, rounds: seq<Round>) returns (records: seq<RunRecord>)
    requires GitValid(start) && Armed(recorded) && StillApart(start, recorded)
    ensures |records| == |rounds|
    ensures forall k :: 0 <= k < |rounds| ==> Follows(start, recorded, records, rounds, k)
    ensures QuietUpTo(records, rounds, recorded.conflictUp, |rounds|) ==>
              forall k :: 0 <= k < |rounds| ==> ParkedRecord(records[k], recorded, rounds[k])
  {
    records := [];
    var g, st := start, recorded;
    for i := 0 to |rounds|
      invariant |records| == i && GitValid(g)
      invariant g == (if i == 0 then start else records[i - 1].after) && st == (if i == 0 then recorded else records[i - 1].st)
      invariant forall k :: 0 <= k < i ==> Follows(start, recorded, records, rounds, k)
      invariant QuietUpTo(records, rounds, recorded.conflictUp, i) ==>
                  && Armed(st) && StillApart(g, st)
                  && st.conflictHead == recorded.conflictHead && st.conflictUp == recorded.conflictUp
                  && forall k :: 0 <= k < i ==> ParkedRecord(records[k], recorded, rounds[k])
    {
      var record := OneRound(g, st, recorded, rounds[i]);
      ghost var before := records;
      records := records + [record];
      g, st := record.after, record.st;
      forall k | 0 <= k < i
        ensures Follows(start, recorded, records, rounds, k)
      {
        assert Follows(start, recorded, before, rounds, k);
      }
      QuietBefore(before, record, rounds, recorded.conflictUp, i);
    }
  }

  /** The k-th run starts from where the one before it ended, after the pause between them. */
  ghost predicate Follows(start: Git, recorded: RepoState, records: seq<RunRecord>, rounds: seq<Round>, k: nat)
    requires k < |rounds|
  {
    && k < |records|
    && var g, st := if k == 0 then start else records[k - 1].after, if k == 0 then recorded else records[k - 1].st;
       records[k].before == Grown(g, st, rounds[k].pause) && records[k].prev == Reentered(st, rounds[k].pause)
  }

  ghost predicate QuietUpTo(records: seq<RunRecord>, rounds: seq<Round>, up: Option<Commit>, n: nat) {
    forall k :: 0 <= k < n && k < |rounds| && k < |records| ==> QuietAnswers(rounds[k].answers, records[k].before, 0, 0, up)
  }

  lemma QuietBefore(records: seq<RunRecord>, record: RunRecord, rounds: seq<Round>, up: Option<Commit>, n: nat)
    requires |records| == n < |rounds|
    ensures QuietUpTo(records + [record], rounds, up, n + 1) <==>
            QuietUpTo(records, rounds, up, n) && QuietAnswers(rounds[n].answers, record.before, 0, 0, up)
  {
    var all := records + [record];
    assert all[n] == record;
    assert forall k :: 0 <= k < n ==> all[k] == records[k];
  }

  /** The run found the conflict parked and left it so: no rebase, no push, no event, the same refs. */
  ghost predicate ParkedRecord(record: RunRecord, recorded: RepoState, round: Round) {
    && record.rebases == record.pushes == record.conflictEvents == 0
    && record.st.conflict && record.st.conflictHead == recorded.conflictHead && record.st.conflictUp == recorded.conflictUp
    && Armed(record.st) && StillApart(record.after, record.st)
    && (!round.localOnly && record.err.None? ==> record.guarded && record.commits > 0 && record.fetches > 0)
    && (!round.localOnly && Smooth(round.answers) ==> record.err.None?)
  }

  /** Nothing stops the run before the conflict check. */
  ghost predicate Smooth(a: Answers) {
    Passes(a.preflight(0)) && a.commit(0).Clean? && a.fetch(0).Through?
  }

  method OneRound(g: Git, st: RepoState, recorded: RepoState, round: Round) returns (record: RunRecord)
    requires GitValid(g)
    ensures GitValid(record.after)
    ensures record.before == Grown(g, st, round.pause) && record.prev == Reentered(st, round.pause)
    ensures (&& Armed(st) && StillApart(g, st) && st.conflictUp == recorded.conflictUp
             && st.conflictHead == recorded.conflictHead && QuietAnswers(round.answers, record.before, 0, 0, recorded.conflictUp)) ==>
              ParkedRecord(record, recorded, round)
  {
    var run := new SyncRun(Grown(g, st, round.pause), Reentered(st, round.pause), false, round.answers);
    if Armed(st) && StillApart(g, st) {
      PauseKeepsParked(g, st, round.pause);
    }
    var err := run.AutoSync(round.localOnly);
    record := RunRecord(run.origin, run.prev, run.g, run.st, err, run.guarded,
                        run.commits, run.fetches, run.rebases, run.pushes, run.conflictEvents);
  }

  /**
   From the run that records the conflict on: if its refs are known and HEAD lacks the upstream, every
   later quiet run leaves the conflict alone.
   */
  method ConflictThenParked(g: Git, st: RepoState, force: bool, answers: Answers, rounds: seq<Round>)
    returns (err: Option<Err>, after: Git, recorded: bool, records: seq<RunRecord>)
    requires GitValid(g)
    ensures recorded <==>
            && err.Some? && err.value.ConflictErr? && err.value.head.Some? && err.value.up.Some?
            && !answers.cancelled && err.value.up.value !in History(after.head)
    ensures recorded ==> |records| == |rounds|
    ensures recorded && QuietUpTo(records, rounds, err.value.up, |rounds|) ==>
              forall k :: 0 <= k < |rounds| ==>
                && records[k].rebases == records[k].pushes == records[k].conflictEvents == 0
                && records[k].st.conflictHead == err.value.head && records[k].st.conflictUp == err.value.up
  {
    var run := new SyncRun(g, st, force, answers);
    err := run.AutoSync(false);
    after, recorded, records := run.g, false, [];
    if err.Some? && err.value.ConflictErr? && err.value.head.Some? && err.value.up.Some?
       && !answers.cancelled && err.value.up.value !in History(run.g.head) {
      recorded := true;
      records := ParkedRuns(run.g, run.st, rounds);
    }
  }

  // ---------- Runs that go otherwise than one would expect ----------

  /** Nothing to commit, no rebase or push goes through; only the fetch and the conflict check differ. */
  function PlainAnswers(fetch: Fetching, others: Others, guard: Guarding): Answers {
    Answers(_ => Preflighting(false, false, false, false, false, false, false), false,
            _ => Clean, _ => Stay, _ => fetch, _ => others, _ => Counted, guard,
            _ => NotStarted(false, false), _ => Stay, _ => PushError, _ => Stay, false, [])
  }

  /** The remote branch was deleted and the tracking branch cannot be looked up: the run succeeds all the same. */
  method BlindRunSucceeds(c: Commit) returns (run: SyncRun, err: Option<Err>)
    ensures fresh(run) && err.None? && !run.guarded && run.st.status == OK
    ensures run.g.head == Some(c) && run.g.remote.None? && run.contact.None? && run.blind
  {
    var answers := PlainAnswers(Through(true), MoveTo(None), Guarding(false, false, false));
    var g := Git(Some(c), None, Some(c), Some(c), Reach(c));
    run := new SyncRun(g, FreshEntry, false, answers);
    assert run.Reaches(g, 0, 0, None);
    err := run.AutoSync(false);
  }

  /** A conflict on record, the upstream where it was, and one failed query: the run rebases again. */
  method GuardIsSkipped(base: Commit, mine: Patch, theirs: Patch) returns (run: SyncRun, err: Option<Err>)
    requires mine != theirs
    ensures fresh(run) && run.Parked(run.origin) && run.origin.tracking == run.prev.conflictUp == run.origin.remote
    ensures !run.guarded && run.rebases > 0
  {
    var head, up := Child(mine, base), Child(theirs, base);
    ChildReach(mine, base);
    ChildIsNew(theirs, base);
    assert head in Reach(head) && up in Reach(up) && up !in Reach(head);
    var answers := PlainAnswers(Through(false), Stay, Guarding(true, false, false));
    var g := Git(Some(head), None, Some(up), Some(up), Reach(up));
    run := new SyncRun(g, RepoState(Conflicted, true, ["file"], Some(head), Some(up), false), false, answers);
    assert run.Reaches(g, 0, 0, Some(up));
    err := run.AutoSync(false);
  }

  /** The user has merged the upstream into HEAD: the guard lets go, the merge is pushed and the conflict is off the record. */
  method ResolvedConflictIsCleared(base: Commit, mine: Patch, theirs: Patch, merge: Patch)
    returns (run: SyncRun, err: Option<Err>)
    requires mine != theirs
    ensures fresh(run) && Armed(run.prev) && err.None? && !run.guarded
    ensures !run.st.conflict && run.g.remote == run.g.head == run.origin.head && run.g.remote != run.origin.remote
  {
    var ours, up := Child(mine, base), Child(theirs, base);
    var head := GitModel.Commit(merge, Parent(ours, Parent(up, NoParents)));
    ReachOfMerge(merge, ours, up);
    ChildReach(mine, base);
    ChildReach(theirs, base);
    assert ours in Reach(ours) && up in Reach(up) && up in Reach(head);
    MergeIsNew(merge, ours, up);
    var answers := PlainAnswers(Through(false), Stay, Guarding(false, false, false)).(push := _ => Taken);
    var g := Git(Some(head), None, Some(up), Some(up), Reach(up));
    run := new SyncRun(g, RepoState(Conflicted, true, ["file"], Some(ours), Some(up), false), false, answers);
    assert run.Seen(g, 0, 0) == g by { assert Reach(up) + Reach(up) == Reach(up); }
    assert run.Arrives(g, false, 1, 0, 0);
    err := run.AutoSync(false);
  }

  lemma MergeIsNew(patch: Patch, a: Commit, b: Commit)
    ensures GitModel.Commit(patch, Parent(a, Parent(b, NoParents))) != b
  {
    assert MaxHeight(Parent(b, NoParents)) >= Height(b);
    assert MaxHeight(Parent(a, Parent(b, NoParents))) >= MaxHeight(Parent(b, NoParents));
    assert Height(GitModel.Commit(patch, Parent(a, Parent(b, NoParents)))) > Height(b);
  }

  /** The upstream moved on, the rebase stops, and looking for it fails: the clone is left in the middle of it. */
  method LeftMidRebase(base: Commit, mine: Patch, theirs: Patch, middle: Commit) returns (run: SyncRun, err: Option<Err>)
    requires mine != theirs
    ensures fresh(run) && run.origin.rebasing.None? && err == Some(StatErr)
    ensures run.g.rebasing == run.origin.head && run.st.status == Error
  {
    var head, up := Child(mine, base), Child(theirs, base);
    ChildReach(mine, base);
    ChildIsNew(theirs, base);
    assert up !in Reach(head);
    var stop := Stopped(middle, true, false, true, ["file"], false, false);
    var answers := PlainAnswers(Through(false), MoveTo(Some(up)), Guarding(false, false, false)).(rebase := _ => stop);
    var g := Git(Some(head), None, Some(base), Some(base), Reach(base));
    assert base in Reach(base);
    run := new SyncRun(g, FreshEntry, false, answers);
    assert run.Reaches(g, 0, 0, Some(up));
    err := run.AutoSync(false);
  }

  lemma StillKept(a: Git, b: Git, c: Git)
    requires Work(b) <= Work(c) && b.published <= c.published
    ensures Keeps(a, b) ==> Keeps(a, c)
    ensures KeepsAll(a, b) ==> KeepsAll(a, c)
  {
    SameWorkKeeps(b, c);
    KeepsTransitive(a, b, c);
  }

  /** Nothing ahead of a tracking branch that HEAD contains means they are the same. */
  lemma EvenHeads(n: nat, head: Option<Commit>, tracking: Option<Commit>)
    requires head.Some? && Contains(head, tracking) && Counts(n, head, tracking)
    ensures n == 0 <==> head == tracking
  {
    CountsMeans(n, head, tracking);
    NotAheadMeansSubset(head, tracking);
    assert head.value in History(head);
    if n == 0 && tracking.Some? {
      EvenMeansEqual(head.value, tracking.value);
    }
  }
}
