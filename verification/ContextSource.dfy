/** `MemoryPromptContextSource` of app/memory/runtime.py: the epoch it keeps under its lock, and in ghost fields
    the storage, mutators and calls around it. */
module ContextSources {
  import opened ContextEpoch

  class ContextSource {
    var epoch: nat
    ghost var version: nat
    ghost var mutators: map<Id, Mutator>
    ghost var readers: map<Id, Reader>

    ghost function View(): State
      reads this
    {
      State(version, epoch, mutators, readers)
    }

    ghost predicate Valid()
      reads this
    {
      Inv(View())
    }

    constructor ()
      ensures Valid() && View() == INITIAL
    {
      epoch, version, mutators, readers := 0, 0, map[], map[];
    }

    /** A round of `snapshot_for` begins: the epoch is read under the lock. */
    method Begin(ghost r: Id) returns (mine: nat)
      requires Valid() && Enabled(View(), ReadEpoch(r))
      modifies `readers
      ensures Valid() && View() == Do(old(View()), ReadEpoch(r))
      ensures mine == epoch && IsBuilding(View(), r) && readers[r].phase.epoch == mine
      ensures forall m :: m in AnnouncedIn(View()) ==> mutators[m].written <= readers[r].phase.since
    {
      StepKeeps(View(), ReadEpoch(r));
      mine := epoch;
      readers := Do(View(), ReadEpoch(r)).readers;
      assert ReaderOk(View(), r);
    }

    /** The round ends: its snapshot is returned only if no mutation was announced meanwhile, and was then read
        wholly after every announced one; otherwise the call tries again. */
    method Finish(ghost r: Id, mine: nat) returns (returned: bool)
      requires Valid() && IsBuilding(View(), r) && readers[r].phase.epoch == mine
      modifies `readers
      ensures Valid() && View() == Do(old(View()), Check(r))
      ensures returned <==> IsFinished(View(), r)
      ensures returned ==> forall m :: m in AnnouncedIn(View()) ==> AllFrom(readers[r].phase.seen, mutators[m].written)
      ensures !returned ==> mine < epoch && readers[r].retries == old(readers)[r].retries + 1
    {
      StepKeeps(View(), Check(r));
      assert ReaderOk(View(), r);
      returned := mine == epoch;
      readers := readers[r := AfterCheck(readers[r], epoch, AnnouncedIn(View()))];
      assert View() == Do(old(View()), Check(r));
      assert ReaderOk(View(), r);
    }

    /** `invalidate`: no snapshot under way can be returned without being built anew. */
    method Announce(ghost m: Id)
      requires Valid() && IsWorking(View(), m)
      modifies `epoch, `mutators
      ensures Valid() && View() == Do(old(View()), Invalidate(m))
      ensures forall r :: IsBuilding(View(), r) ==> readers[r].phase.epoch < epoch
    {
      StepKeeps(View(), Invalidate(m));
      forall r | IsBuilding(View(), r) ensures readers[r].phase.epoch <= epoch {
        assert ReaderOk(View(), r);
      }
      epoch := epoch + 1;
      mutators := mutators[m := mutators[m].(progress := Announced)];
      assert View() == Do(old(View()), Invalidate(m));
    }
  }
}
