/**
 The daemon's log file, which is rotated through numbered backups when it would grow past a
 limit. Slot 0 is the current file and slot i the i-th backup, 1 being the newest. Any call to
 the file system may fail. A backup that fails to move is left where it is, and the next one
 moves over it.
 */
module RotatingLog {
  import opened Basics

  type Bytes = seq<Byte>
  type Dir = map<nat, Bytes>

  datatype Slot = Absent | File(data: Bytes)

  function SlotOf(dir: Dir, i: nat): Slot {
    if i in dir then File(dir[i]) else Absent
  }

  function Content(dir: Dir, i: nat): Bytes {
    if i in dir then dir[i] else []
  }

  /** The log as a reader sees it: oldest backup first, current file last. */
  function Log(dir: Dir, files: nat): Bytes {
    if files == 0 then [] else Content(dir, files - 1) + Log(dir, files - 1)
  }

  ghost predicate IsSuffix(s: Bytes, whole: Bytes) {
    |s| <= |whole| && s == whole[|whole| - |s|..]
  }

  lemma SuffixOfSuffix(a: Bytes, b: Bytes, c: Bytes)
    requires IsSuffix(a, b) && IsSuffix(b, c)
    ensures IsSuffix(a, c)
  {
    assert b[|b| - |a|..] == c[|c| - |b|..][|b| - |a|..] == c[|c| - |a|..];
  }

  lemma SuffixGrows(s: Bytes, whole: Bytes, more: Bytes)
    requires IsSuffix(s, whole)
    ensures IsSuffix(s + more, whole + more)
  {
    assert (whole + more)[|whole| - |s|..] == whole[|whole| - |s|..] + more;
  }

  // ---------- What a rotation does to the slots ----------

  /** The file in slot `i` leaves it: moved up, or removed if it is the oldest. `fails` are the slots whose file cannot. */
  predicate Leaves(before: Dir, fails: set<nat>, i: nat) {
    i in before && i !in fails
  }

  /** The slot from which slot `i` has its file after everything from `low` on had its turn. */
  function Source(before: Dir, fails: set<nat>, low: nat, files: nat, i: nat): nat {
    if low < i < files && Leaves(before, fails, i - 1) then i - 1 else i
  }

  ghost predicate MovedAt(before: Dir, after: Dir, fails: set<nat>, low: nat, files: nat, i: nat) {
    SlotOf(after, i) ==
      if low < i < files && Leaves(before, fails, i - 1) then SlotOf(before, i - 1)
      else if low <= i < files && Leaves(before, fails, i) then Absent
      else SlotOf(before, i)
  }

  /** Every file from slot `low` on has moved up by one, except those that fail; the oldest is gone. */
  ghost predicate Moved(before: Dir, after: Dir, fails: set<nat>, low: nat, files: nat) {
    forall i: nat :: MovedAt(before, after, fails, low, files, i)
  }

  /** One more rename, of the file in slot `low`. */
  lemma MoveOne(before: Dir, dir: Dir, fails: set<nat>, low: nat, files: nat)
    requires low + 1 < files && Moved(before, dir, fails, low + 1, files)
    ensures low in dir <==> low in before
    ensures Moved(before, if Leaves(before, fails, low) then dir[low + 1 := dir[low]] - {low} else dir, fails, low, files)
  {
    assert MovedAt(before, dir, fails, low + 1, files, low);
    var after := if Leaves(before, fails, low) then dir[low + 1 := dir[low]] - {low} else dir;
    forall i: nat
      ensures MovedAt(before, after, fails, low, files, i)
    {
      assert MovedAt(before, dir, fails, low + 1, files, i);
    }
  }

  lemma Associates(a: Bytes, b: Bytes, c: Bytes)
    ensures (a + b) + c == a + (b + c)
  {
  }

  // ---------- What is left of the log ----------

  /** The file in slot `i` stays where it is and nothing moves over it. */
  predicate Stays(before: Dir, fails: set<nat>, i: nat) {
    i in before && i in fails && !(i > 0 && Leaves(before, fails, i - 1))
  }

  /** It is still there afterwards, here or one slot up. */
  predicate Survives(before: Dir, fails: set<nat>, files: nat, i: nat) {
    Stays(before, fails, i) || (Leaves(before, fails, i) && i + 1 < files)
  }

  /** The surviving files below slot `k`, oldest first. */
  function Kept(before: Dir, fails: set<nat>, files: nat, k: nat): Bytes {
    if k == 0 then []
    else (if Survives(before, fails, files, k - 1) then Content(before, k - 1) else []) + Kept(before, fails, files, k - 1)
  }

  /** Whatever fails, the log afterwards is the surviving files in their old order. */
  lemma {:induction false} LogIsKept(before: Dir, after: Dir, fails: set<nat>, files: nat, k: nat)
    requires Moved(before, after, fails, 0, files) && k < files
    ensures Log(after, k + 1) == (if Stays(before, fails, k) then Content(before, k) else []) + Kept(before, fails, files, k)
  {
    assert MovedAt(before, after, fails, 0, files, k);
    if k == 0 {
      assert Log(after, 0) == [] && Kept(before, fails, files, 0) == [];
    } else {
      LogIsKept(before, after, fails, files, k - 1);
      var below := Kept(before, fails, files, k - 1);
      if Leaves(before, fails, k - 1) {
        assert Log(after, k) == [] + below == below;
        assert !Stays(before, fails, k) && Content(after, k) == Content(before, k - 1);
        assert Kept(before, fails, files, k) == Content(before, k - 1) + below;
        assert [] + Kept(before, fails, files, k) == Kept(before, fails, files, k);
      } else {
        assert Kept(before, fails, files, k) == Log(after, k);
        assert Content(after, k) == if Stays(before, fails, k) then Content(before, k) else [];
      }
    }
  }

  lemma RotatedLog(before: Dir, after: Dir, fails: set<nat>, files: nat)
    requires files > 0 && Moved(before, after, fails, 0, files)
    ensures Log(after, files) == Kept(before, fails, files, files)
  {
    LogIsKept(before, after, fails, files, files - 1);
  }

  // ---------- When that is still the end of the log ----------

  /** Of the slots that hold a file, none that survives is older than one that does not. */
  ghost predicate Intact(slots: set<nat>, fails: set<nat>, files: nat) {
    forall lost: nat, older: nat :: !LostUnder(slots, fails, files, lost, older)
  }

  /** A file was overwritten, or removed, and an older one is still there. */
  ghost predicate LostUnder(slots: set<nat>, fails: set<nat>, files: nat, lost: nat, older: nat) {
    lost < older < files && lost in slots && !SurvivesIn(slots, fails, files, lost) && SurvivesIn(slots, fails, files, older)
  }

  /** Survival depends only on which slots hold a file. */
  predicate SurvivesIn(slots: set<nat>, fails: set<nat>, files: nat, i: nat) {
    && i in slots
    && if i in fails then !(i > 0 && i - 1 in slots && i - 1 !in fails) else i + 1 < files
  }

  lemma SurvivalIsOfSlots(before: Dir, fails: set<nat>, files: nat, i: nat)
    ensures Survives(before, fails, files, i) <==> SurvivesIn(before.Keys, fails, files, i)
  {
  }

  lemma {:induction false} NoneLostBelow(before: Dir, fails: set<nat>, files: nat, k: nat)
    requires forall i: nat :: i < k && i in before ==> Survives(before, fails, files, i)
    ensures Kept(before, fails, files, k) == Log(before, k)
  {
    if k > 0 {
      NoneLostBelow(before, fails, files, k - 1);
    }
  }

  lemma {:induction false} AllLostAbove(before: Dir, fails: set<nat>, files: nat, m: nat, k: nat)
    requires m <= k && forall i: nat :: m <= i < k ==> !Survives(before, fails, files, i)
    ensures Kept(before, fails, files, k) == Kept(before, fails, files, m)
  {
    if m < k {
      AllLostAbove(before, fails, files, m, k - 1);
    }
  }

  lemma {:induction false} LogEnds(dir: Dir, m: nat, files: nat)
    requires m <= files
    ensures IsSuffix(Log(dir, m), Log(dir, files))
  {
    if m < files {
      LogEnds(dir, m, files - 1);
      var rest := Log(dir, files - 1);
      assert (Content(dir, files - 1) + rest)[|Content(dir, files - 1)|..] == rest;
      SuffixOfSuffix(Log(dir, m), rest, Log(dir, files));
    }
  }

  /** The newest slot whose file is lost, or `k` if none below it is. */
  lemma {:induction false} FirstLost(before: Dir, fails: set<nat>, files: nat, k: nat) returns (m: nat)
    ensures m <= k && (m < k ==> m in before && !Survives(before, fails, files, m))
    ensures forall i: nat :: i < m && i in before ==> Survives(before, fails, files, i)
  {
    if k == 0 {
      m := 0;
    } else {
      m := FirstLost(before, fails, files, k - 1);
      if m == k - 1 && (k - 1 !in before || Survives(before, fails, files, k - 1)) {
        m := k;
      }
    }
  }

  lemma IntactKeepsEnd(before: Dir, fails: set<nat>, files: nat)
    requires Intact(before.Keys, fails, files)
    ensures IsSuffix(Kept(before, fails, files, files), Log(before, files))
  {
    var m := FirstLost(before, fails, files, files);
    NoneLostBelow(before, fails, files, m);
    forall i: nat | m <= i < files
      ensures !Survives(before, fails, files, i)
    {
      SurvivalIsOfSlots(before, fails, files, i);
      if m < i {
        SurvivalIsOfSlots(before, fails, files, m);
        assert !LostUnder(before.Keys, fails, files, m, i);
      }
    }
    AllLostAbove(before, fails, files, m, files);
    LogEnds(before, m, files);
  }

  /** A directory in which just two slots hold a byte each. */
  function TwoBytes(slots: set<nat>, newer: nat, older: nat): Dir {
    map i <- slots :: if i == older then [0] else if i == newer then [1] else []
  }

  lemma {:induction false} TwoBytesLog(slots: set<nat>, newer: nat, older: nat, k: nat)
    requires newer < older && newer in slots && older in slots
    ensures Log(TwoBytes(slots, newer, older), k) == (if older < k then [0] else []) + (if newer < k then [1] else [])
  {
    if k > 0 {
      TwoBytesLog(slots, newer, older, k - 1);
    }
  }

  lemma {:induction false} TwoBytesKept(slots: set<nat>, newer: nat, older: nat, fails: set<nat>, files: nat, k: nat)
    requires LostUnder(slots, fails, files, newer, older)
    ensures Kept(TwoBytes(slots, newer, older), fails, files, k) == if older < k then [0] else []
  {
    if k > 0 {
      TwoBytesKept(slots, newer, older, fails, files, k - 1);
      SurvivalIsOfSlots(TwoBytes(slots, newer, older), fails, files, k - 1);
    }
  }

  /**
   Exactly when a rotation leaves the end of the log, whatever the files hold: when no file survives
   that is older than one that failed to move and was overwritten, or was removed.
   */
  lemma SuffixIffIntact(slots: set<nat>, fails: set<nat>, files: nat)
    ensures Intact(slots, fails, files) <==>
            forall dir: Dir :: dir.Keys == slots ==> IsSuffix(Kept(dir, fails, files, files), Log(dir, files))
  {
    if Intact(slots, fails, files) {
      forall dir: Dir | dir.Keys == slots
        ensures IsSuffix(Kept(dir, fails, files, files), Log(dir, files))
      {
        IntactKeepsEnd(dir, fails, files);
      }
    } else {
      var newer, older :| LostUnder(slots, fails, files, newer, older);
      var dir := TwoBytes(slots, newer, older);
      TwoBytesLog(slots, newer, older, files);
      TwoBytesKept(slots, newer, older, fails, files, files);
      assert dir.Keys == slots && Log(dir, files) == [0, 1] && Kept(dir, fails, files, files) == [0];
      assert !IsSuffix([0], [0, 1]);
    }
  }

  /** When every backup can leave its slot, the log keeps its end, also if the current file cannot be moved. */
  lemma NoFailureIsIntact(slots: set<nat>, fails: set<nat>, files: nat)
    requires fails <= {0}
    ensures Intact(slots, fails, files)
  {
    forall lost: nat, older: nat
      ensures !LostUnder(slots, fails, files, lost, older)
    {
    }
  }

  /** Three backups of which the newest cannot be moved: the middle of the log is lost. */
  lemma MiddleIsLost()
    ensures var dir: Dir := map[3 := [1], 2 := [2], 1 := [3], 0 := [4]];
            && Log(dir, 4) == [1, 2, 3, 4] && Kept(dir, {1}, 4, 4) == [2, 4]
            && !IsSuffix(Kept(dir, {1}, 4, 4), Log(dir, 4)) && !Intact(dir.Keys, {1}, 4)
  {
    var dir: Dir := map[3 := [1], 2 := [2], 1 := [3], 0 := [4]];
    var f: set<nat> := {1};
    assert Log(dir, 1) == [4] && Log(dir, 2) == [3, 4] && Log(dir, 3) == [2, 3, 4] && Log(dir, 4) == [1, 2, 3, 4];
    assert Kept(dir, f, 4, 0) == [];
    assert Kept(dir, f, 4, 1) == [4];
    assert Kept(dir, f, 4, 2) == [4];
    assert Kept(dir, f, 4, 3) == [2, 4];
    assert Kept(dir, f, 4, 4) == [2, 4];
    assert LostUnder(dir.Keys, f, 4, 1, 2);
  }

  // ---------- Opening and appending ----------

  lemma {:induction false} LogAppends(before: Dir, after: Dir, data: Bytes, files: nat)
    requires files > 0 && after == before[0 := Content(before, 0) + data]
    ensures Log(after, files) == Log(before, files) + data
  {
    if files > 1 {
      LogAppends(before, after, data, files - 1);
      Associates(Content(before, files - 1), Log(before, files - 1), data);
    } else {
      assert Log(after, 0) == [] == Log(before, 0);
    }
  }

  lemma OpeningKeepsLog(dir: Dir, files: nat)
    requires files > 0
    ensures Log(dir[0 := Content(dir, 0)], files) == Log(dir, files)
  {
    assert Content(dir, 0) + [] == Content(dir, 0);
    LogAppends(dir, dir[0 := Content(dir, 0)], [], files);
  }

  lemma {:induction false} EmptyingIsRemoving(dir: Dir, files: nat)
    requires Content(dir, 0) == []
    ensures Log(dir - {0}, files) == Log(dir, files)
  {
    if files > 0 {
      EmptyingIsRemoving(dir, files - 1);
    }
  }

  /** No file outside the first `files` slots is made, changed or removed. */
  ghost predicate SameBeyond(before: Dir, after: Dir, files: nat) {
    forall i: nat :: i >= files ==> SlotOf(after, i) == SlotOf(before, i)
  }

  lemma MoveKeepsBeyond(before: Dir, after: Dir, fails: set<nat>, files: nat)
    requires Moved(before, after, fails, 0, files)
    ensures SameBeyond(before, after, files)
  {
    forall i: nat | i >= files
      ensures SlotOf(after, i) == SlotOf(before, i)
    {
      assert MovedAt(before, after, fails, 0, files, i);
    }
  }

  /** The slots whose file was begun by a rotation, after another one. */
  ghost function BegunAfter(begun: set<nat>, before: Dir, fails: set<nat>, files: nat): set<nat> {
    set i: nat | i < files && Source(before, fails, 0, files, i) in begun
  }

  // ---------- The writer ----------

  /** How the file system answers the calls of one write; `fails` are the slots whose file cannot be moved or removed. */
  datatype Faults = Faults(openFails: bool, fails: set<nat>, reopenFails: bool, written: nat)

  class RotatingWriter {
    const maxBytes: int
    const maxFiles: nat
    var dir: Dir
    var open: bool
    var size: nat
    /** Everything written, after what the files held when the writer was made. */
    ghost var total: Bytes
    /** No rotation so far has lost a file from the middle. */
    ghost var intact: bool
    /** The slots whose file was begun by a rotation, and the largest single write. */
    ghost var begun: set<nat>
    ghost var largest: nat

    ghost const Limit := if maxBytes > 0 then maxBytes else 0

    /** No longer than the larger of the limit and the largest single write. */
    ghost predicate Within(d: Dir, i: nat)
      reads this`largest
    {
      |Content(d, i)| <= Limit || |Content(d, i)| <= largest
    }

    ghost predicate Valid()
      reads this
    {
      && maxFiles >= 1
      && (open ==> 0 in dir && size == |dir[0]|)
      && (intact ==> IsSuffix(Log(dir, maxFiles), total))
      && (forall i <- begun :: Within(dir, i)) && (begun != {} ==> maxBytes > 0)
    }

    constructor (dir: Dir, maxBytes: int, maxFiles: int)
      ensures Valid() && open && this.maxBytes == maxBytes && this.maxFiles == (if maxFiles < 1 then 1 else maxFiles)
      ensures total == Log(dir, this.maxFiles) && intact && begun == {} && largest == 0
      ensures this.dir == dir[0 := Content(dir, 0)]
    {
      this.maxBytes := maxBytes;
      this.maxFiles := if maxFiles < 1 then 1 else maxFiles;
      this.dir := dir[0 := Content(dir, 0)];
      open, size := true, |Content(dir, 0)|;
      total, intact, begun, largest := Log(dir, if maxFiles < 1 then 1 else maxFiles), true, {}, 0;
      new;
      OpeningKeepsLog(dir, this.maxFiles);
    }

    method Open(fails: bool) returns (ok: bool)
      requires Valid()
      modifies this`dir, this`open, this`size
      ensures Valid() && ok == !fails && (ok ==> open)
      ensures dir == if ok && 0 !in old(dir) then old(dir)[0 := []] else old(dir)
      ensures fails ==> open == old(open)
    {
      if fails {
        return false;
      }
      OpeningKeepsLog(dir, maxFiles);
      dir := dir[0 := Content(dir, 0)];
      open, size := true, |Content(dir, 0)|;
      return true;
    }

    /** Removes the oldest backup and moves the others up, oldest first; errors are ignored. */
    method MoveBackups(fails: set<nat>)
      requires maxFiles >= 2
      modifies this`dir
      ensures Moved(old(dir), dir, fails, 1, maxFiles)
    {
      ghost var top := maxFiles - 1;
      if maxFiles - 1 !in fails {
        dir := dir - {maxFiles - 1};
      }
      var i := maxFiles - 2;
      forall j: nat
        ensures MovedAt(old(dir), dir, fails, top, maxFiles, j)
      {
      }
      while i >= 1
        invariant 0 <= i && Moved(old(dir), dir, fails, i + 1, maxFiles)
      {
        MoveOne(old(dir), dir, fails, i, maxFiles);
        if i in dir && i !in fails {
          dir := dir[i + 1 := dir[i]] - {i};
        }
        i := i - 1;
      }
    }

    /** Empties slot 0: by truncation when there are no backups, else by moving everything up. */
    method Clear(fails: set<nat>) returns (ok: bool)
      requires maxFiles >= 1
      modifies this`dir
      ensures ok <==> !(0 in fails && 0 in old(dir))
      ensures ok ==> Content(dir, 0) == [] && Moved(old(dir), dir - {0}, fails, 0, maxFiles)
      ensures !ok ==> Moved(old(dir), dir, fails, 0, maxFiles)
    {
      if maxFiles == 1 {
        ok := Truncate(0 in fails);
        ghost var after := if ok then dir - {0} else dir;
        forall j: nat
          ensures MovedAt(old(dir), after, fails, 0, maxFiles, j)
        {
        }
        return;
      }
      MoveBackups(fails);
      MoveOne(old(dir), dir, fails, 0, maxFiles);
      if 0 in dir {
        if 0 in fails {
          return false;
        }
        dir := dir[1 := dir[0]] - {0};
      }
      assert dir - {0} == dir;
      return true;
    }

    method Truncate(fails: bool) returns (ok: bool)
      modifies this`dir
      ensures ok <==> !(fails && 0 in old(dir))
      ensures dir == if ok && 0 in old(dir) then old(dir)[0 := []] else old(dir)
    {
      ok := true;
      if 0 in dir {
        if fails {
          return false;
        }
        dir := dir[0 := []];
      }
    }

    /** A file keeps within the bound when it moves to another slot. */
    lemma MovedStaysBounded(before: Dir, after: Dir, fails: set<nat>)
      requires Moved(before, after, fails, 0, maxFiles) && forall i <- begun :: Within(before, i)
      ensures forall i <- BegunAfter(begun, before, fails, maxFiles) :: Within(after, i)
    {
      forall i <- BegunAfter(begun, before, fails, maxFiles)
        ensures Within(after, i)
      {
        assert MovedAt(before, after, fails, 0, maxFiles, i);
      }
    }

    /** The slots have moved: what that means for the log and for the files begun by rotations. */
    ghost method Account(before: Dir, fails: set<nat>, cleared: bool)
      requires maxFiles >= 1 && maxBytes > 0 && !open && (intact ==> IsSuffix(Log(before, maxFiles), total))
      requires forall i <- begun :: Within(before, i)
      requires cleared ==> Content(dir, 0) == []
      requires Moved(before, if cleared then dir - {0} else dir, fails, 0, maxFiles)
      modifies this`intact, this`begun
      ensures Valid() && intact == (old(intact) && Intact(before.Keys, fails, maxFiles))
      ensures begun == BegunAfter(old(begun), before, fails, maxFiles) + if cleared then {0} else {}
      ensures Log(dir, maxFiles) == Kept(before, fails, maxFiles, maxFiles)
      ensures SameBeyond(before, dir, maxFiles)
    {
      ghost var after := if cleared then dir - {0} else dir;
      if cleared {
        EmptyingIsRemoving(dir, maxFiles);
      }
      RotatedLog(before, after, fails, maxFiles);
      MovedStaysBounded(before, after, fails);
      MoveKeepsBeyond(before, after, fails, maxFiles);
      assert forall i: nat :: i > 0 ==> SlotOf(after, i) == SlotOf(dir, i);
      intact := intact && Intact(before.Keys, fails, maxFiles);
      if intact {
        IntactKeepsEnd(before, fails, maxFiles);
        SuffixOfSuffix(Log(dir, maxFiles), Log(before, maxFiles), total);
      }
      begun := BegunAfter(begun, before, fails, maxFiles) + if cleared then {0} else {};
    }

    /** Closes the file, clears slot 0 and opens it again; a failure leaves the file closed. */
    method Rotate(fails: set<nat>, reopenFails: bool) returns (ok: bool)
      requires Valid() && open && maxBytes > 0
      modifies this`dir, this`open, this`size, this`begun, this`intact
      ensures Valid() && ok == (0 !in fails && !reopenFails) && open == ok && SameBeyond(old(dir), dir, maxFiles)
      ensures intact == (old(intact) && Intact(old(dir).Keys, fails, maxFiles))
      ensures Log(dir, maxFiles) == Kept(old(dir), fails, maxFiles, maxFiles)
      ensures ok ==> begun == BegunAfter(old(begun), old(dir), fails, maxFiles) + {0}
      ensures ok ==> dir[0] == [] && Moved(old(dir), dir - {0}, fails, 0, maxFiles)
    {
      open := false;
      var cleared := Clear(fails);
      Account(old(dir), fails, cleared);
      if !cleared {
        return false;
      }
      ghost var emptied := dir;
      EmptyingIsRemoving(dir, maxFiles);
      ok := Open(reopenFails);
      assert dir - {0} == emptied - {0};
      EmptyingIsRemoving(dir, maxFiles);
      assert forall i: nat :: i > 0 ==> SlotOf(dir, i) == SlotOf(emptied, i);
    }

    /** Appends to the open file; a short write is an error after `n` bytes. */
    method Append(p: Bytes, count: nat) returns (n: nat)
      requires Valid() && open && count <= |p|
      requires 0 in begun ==> |dir[0]| + |p| <= Limit || |dir[0]| == 0
      modifies this`dir, this`size, this`total, this`largest
      ensures Valid() && open && n == count
      ensures dir == old(dir)[0 := old(dir)[0] + p[..n]] && total == old(total) + p[..n]
      ensures largest == if old(largest) < n then n else old(largest)
    {
      n := count;
      LogAppends(dir, dir[0 := dir[0] + p[..n]], p[..n], maxFiles);
      if intact {
        SuffixGrows(Log(dir, maxFiles), total, p[..n]);
      }
      dir := dir[0 := dir[0] + p[..n]];
      size := size + n;
      total := total + p[..n];
      largest := if largest < n then n else largest;
    }

    /** Whether the next `more` bytes would push a non-empty file past the limit. */
    predicate Overflows(have: nat, more: nat) {
      maxBytes > 0 && have > 0 && have + more > maxBytes
    }

    /** Opens the file if it is closed, and rotates if `more` bytes would be too much for it. */
    method MakeRoom(more: nat, faults: Faults) returns (ok: bool)
      requires Valid()
      modifies this`dir, this`open, this`size, this`begun, this`intact
      ensures Valid() && (ok ==> open) && SameBeyond(old(dir), dir, maxFiles)
      ensures var rotates := Overflows(|Content(old(dir), 0)|, more);
              && (ok && rotates ==>
                    && dir[0] == [] && Moved(old(dir), dir - {0}, faults.fails, 0, maxFiles)
                    && begun == BegunAfter(old(begun), old(dir), faults.fails, maxFiles) + {0})
              && (ok && !rotates ==> dir == old(dir)[0 := Content(old(dir), 0)] && begun == old(begun))
              && (!rotates ==> intact == old(intact) && dir - {0} == old(dir) - {0})
              && (old(intact) && Intact(old(dir).Keys, faults.fails, maxFiles) ==> intact)
              && (intact ==> old(intact))
              && (!faults.openFails && 0 !in faults.fails && !faults.reopenFails ==> ok)
    {
      if !open {
        ok := Open(faults.openFails);
        if !ok {
          return;
        }
      }
      ok := true;
      if Overflows(size, more) {
        ok := Rotate(faults.fails, faults.reopenFails);
      }
    }

    /** Nothing that the write needs fails. */
    static predicate Succeeds(faults: Faults, p: Bytes) {
      !faults.openFails && 0 !in faults.fails && !faults.reopenFails && faults.written == |p|
    }

    method Write(p: Bytes, faults: Faults) returns (n: nat, ok: bool)
      requires Valid() && faults.written <= |p|
      modifies this
      ensures Valid() && SameBeyond(old(dir), dir, maxFiles)
      ensures n <= |p| && total == old(total) + p[..n] && (ok ==> n == |p|)
      ensures ok && maxBytes > 0 && Content(old(dir), 0) != [] && |Content(old(dir), 0)| + |p| > maxBytes ==>
                && Content(dir, 0) == p && Moved(old(dir), dir - {0}, faults.fails, 0, maxFiles)
                && begun == BegunAfter(old(begun), old(dir), faults.fails, maxFiles) + {0}
      ensures ok && (maxBytes <= 0 || Content(old(dir), 0) == [] || |Content(old(dir), 0)| + |p| <= maxBytes) ==>
                dir == old(dir)[0 := Content(old(dir), 0) + p] && begun == old(begun)
      ensures maxBytes <= 0 || Content(old(dir), 0) == [] || |Content(old(dir), 0)| + |p| <= maxBytes ==>
                intact == old(intact) && dir - {0} == old(dir) - {0}
      ensures old(intact) && Intact(old(dir).Keys, faults.fails, maxFiles) ==> intact
      ensures Succeeds(faults, p) ==> ok
      ensures largest == if old(largest) < n then n else old(largest)
    {
      ok := MakeRoom(|p|, faults);
      if !ok {
        return 0, false;
      }
      ghost var moved := dir - {0};
      n := Append(p, faults.written);
      ok := n == |p|;
      assert dir - {0} == moved && p[..|p|] == p;
    }

    method Close()
      requires Valid()
      modifies this`open
      ensures Valid() && !open
    {
      open := false;
    }
  }

  function Concat(pieces: seq<Bytes>): Bytes {
    if pieces == [] then [] else Concat(pieces[..|pieces| - 1]) + pieces[|pieces| - 1]
  }

  /**
   Any number of writes, each failing or cut short as it may: what was written is the beginning of each,
   no other slot was touched, and as long as every backup can be moved, the files read oldest to newest
   are the end of what was there and everything written.
   */
  method WriteAll(w: RotatingWriter, writes: seq<Bytes>, faults: seq<Faults>) returns (pieces: seq<Bytes>)
    requires w.Valid() && |faults| == |writes| && forall k :: 0 <= k < |writes| ==> faults[k].written <= |writes[k]|
    modifies w
    ensures w.Valid() && SameBeyond(old(w.dir), w.dir, w.maxFiles)
    ensures |pieces| == |writes| && forall k :: 0 <= k < |writes| ==> pieces[k] <= writes[k]
    ensures w.total == old(w.total) + Concat(pieces)
    ensures old(w.intact) && (forall k :: 0 <= k < |faults| ==> faults[k].fails <= {0}) ==>
              IsSuffix(Log(w.dir, w.maxFiles), old(w.total) + Concat(pieces))
    ensures forall k :: 0 <= k < |writes| && RotatingWriter.Succeeds(faults[k], writes[k]) ==> pieces[k] == writes[k]
  {
    pieces := [];
    for k := 0 to |writes|
      invariant w.Valid() && SameBeyond(old(w.dir), w.dir, w.maxFiles)
      invariant |pieces| == k && forall j :: 0 <= j < k ==> pieces[j] <= writes[j]
      invariant forall j :: 0 <= j < k && RotatingWriter.Succeeds(faults[j], writes[j]) ==> pieces[j] == writes[j]
      invariant w.total == old(w.total) + Concat(pieces)
      invariant old(w.intact) && (forall j :: 0 <= j < k ==> faults[j].fails <= {0}) ==> w.intact
    {
      if faults[k].fails <= {0} {
        NoFailureIsIntact(w.dir.Keys, faults[k].fails, w.maxFiles);
      }
      var n, ok := w.Write(writes[k], faults[k]);
      ghost var before := pieces;
      pieces := pieces + [writes[k][..n]];
      assert pieces[..k] == before;
      Associates(old(w.total), Concat(before), writes[k][..n]);
    }
  }

  /** While everything fits into the current file, it just grows and no backup is made, moved or removed. */
  method WriteWhileItFits(w: RotatingWriter, writes: seq<Bytes>, faults: seq<Faults>)
    requires w.Valid() && |faults| == |writes|
    requires forall k :: 0 <= k < |writes| ==> RotatingWriter.Succeeds(faults[k], writes[k])
    requires w.maxBytes <= 0 || |Content(w.dir, 0)| + |Concat(writes)| <= w.maxBytes
    modifies w
    ensures w.Valid() && w.dir - {0} == old(w.dir) - {0}
    ensures Content(w.dir, 0) == Content(old(w.dir), 0) + Concat(writes)
  {
    for k := 0 to |writes|
      invariant w.Valid() && w.dir - {0} == old(w.dir) - {0}
      invariant Content(w.dir, 0) == Content(old(w.dir), 0) + Concat(writes[..k])
    {
      PrefixIsShorter(writes, k + 1);
      assert writes[..k + 1][..k] == writes[..k];
      Associates(Content(old(w.dir), 0), Concat(writes[..k]), writes[k]);
      ghost var before := w.dir;
      var n, ok := w.Write(writes[k], faults[k]);
      assert w.dir - {0} == before - {0};
    }
    assert writes[..|writes|] == writes;
  }

  lemma {:induction false} PrefixIsShorter(pieces: seq<Bytes>, k: nat)
    requires k <= |pieces|
    ensures |Concat(pieces[..k])| <= |Concat(pieces)|
  {
    if k < |pieces| {
      PrefixIsShorter(pieces[..|pieces| - 1], k);
      assert pieces[..|pieces| - 1][..k] == pieces[..k];
    } else {
      assert pieces[..k] == pieces;
    }
  }
}
