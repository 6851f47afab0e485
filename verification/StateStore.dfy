/**
 The store of repo states as it runs: a map that is changed in place, a counter for sequence
 numbers, and one update at a time that has changed the map and not yet been announced. Each method
 is one atomic step of the replication protocol, seen on a server without connections.
 */
module StateStores {
  import opened Basics
  import opened Replication

  class RepoStateStore {
    var states: map<Path, StoreEntry>
    var seqNo: nat
    /** The update whose listeners are still to be told. */
    var announcing: Option<Update>

    ghost function Shown(): Server
      reads this
    {
      Server(states, seqNo, announcing, 0, map[], {}, None)
    }

    constructor ()
      ensures Shown() == InitialAt(0)
    {
      states, seqNo, announcing := map[], 0, None;
    }

    /** Makes a missing entry; an existing one stays as it is. */
    method EnsureEntry(p: Path)
      modifies this`states
      ensures Shown() == Next(old(Shown()), Ensure(p))
      ensures p in states && forall q :: q in old(states) ==> q in states && states[q] == old(states)[q]
    {
      if p !in states {
        states := states[p := StoreEntry(0, 0)];
      }
    }

    method Remove(p: Path)
      modifies this`states
      ensures Shown() == Next(old(Shown()), RemoveEntry(p))
      ensures p !in states && forall q :: q != p && q in old(states) ==> q in states && states[q] == old(states)[q]
    {
      states := states - {p};
    }

    /** What a saved record sets of an entry; its sequence number stays. */
    method Load(p: Path, data: nat)
      modifies this`states
      ensures Shown() == Next(old(Shown()), LoadEntry(p, data))
    {
      var seqNo := if p in states then states[p].seqNo else 0;
      states := states[p := StoreEntry(data, seqNo)];
    }

    /** The change itself, under both locks; the listeners are told next. */
    method Update(p: Path, data: nat)
      requires announcing.None?
      modifies this
      ensures Shown() == Next(old(Shown()), Change(p, data, false))
      ensures p in states && states[p] == StoreEntry(data, old(seqNo) + 1) && announcing == Some(Replication.Update(p, states[p]))
    {
      seqNo := seqNo + 1;
      states := states[p := StoreEntry(data, seqNo)];
      announcing := Some(Replication.Update(p, states[p]));
    }

    /** The same for an entry that is there; without it nothing happens and nobody is told. */
    method UpdateExisting(p: Path, data: nat) returns (found: bool)
      requires announcing.None?
      modifies this
      ensures Shown() == Next(old(Shown()), Change(p, data, true))
      ensures found == (p in old(states)) && (!found ==> Shown() == old(Shown()))
    {
      if p !in states {
        return false;
      }
      Update(p, data);
      return true;
    }

    /** The listeners have been told, and the next update may begin. */
    method Announced()
      requires announcing.Some?
      modifies this`announcing
      ensures Shown() == Next(old(Shown()), Notify)
    {
      announcing := None;
    }

    method Get(p: Path) returns (entry: Option<StoreEntry>)
      ensures entry == if p in states then Some(states[p]) else None
    {
      entry := if p in states then Some(states[p]) else None;
    }

    /** A copy of every entry, each once. */
    method Snapshot() returns (out: seq<(Path, StoreEntry)>)
      ensures forall p :: p in states ==> (p, states[p]) in out
      ensures forall i :: 0 <= i < |out| ==> out[i].0 in states && out[i].1 == states[out[i].0]
      ensures forall i, j :: 0 <= i < j < |out| ==> out[i].0 != out[j].0
    {
      out := [];
      var todo := states.Keys;
      while todo != {}
        invariant todo <= states.Keys
        invariant forall p :: p in states && p !in todo ==> (p, states[p]) in out
        invariant forall i :: 0 <= i < |out| ==> out[i].0 in states && out[i].0 !in todo && out[i].1 == states[out[i].0]
        invariant forall i, j :: 0 <= i < j < |out| ==> out[i].0 != out[j].0
        decreases |todo|
      {
        var p :| p in todo;
        todo := todo - {p};
        out := out + [(p, states[p])];
      }
    }
  }
}
