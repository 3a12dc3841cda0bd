/**
 The coordinator and its store together: what a running coordinator saves, as bytes on
 disk, is what the next one resumes, and a damaged file resumes nothing.
 */
module Durability {
  import opened Basics
  import opened Types
  import opened Serialize
  import opened CoordinatorCore
  import opened CoordinatorInvariants
  import opened CoordinatorRecovery
  import opened CoordinatorTheorems
  import opened Store

  /** The record is within the length limits of the codec and the store, with workloads
      under their own ids. */
  ghost predicate WithinLimits(d: DurableState) {
    && StorableWorkloads(d.workloads) && StorablePlacements(d.placements) && InBounds(d)
    && (forall t :: t in d.tasks ==> TASK.within(d.tasks[t]))
    && (forall t, i :: t in d.attempts && 0 <= i < |d.attempts[t]| ==> ATTEMPT.within(d.attempts[t][i]))
  }

  lemma AttemptsStorable(d: DurableState)
    requires AttemptsInv(d.attempts, d.tasks.Keys, d.epoch)
    requires forall t :: t in d.attempts ==> d.attempts[t] != []
    requires forall t, i :: t in d.attempts && 0 <= i < |d.attempts[t]| ==>
               d.attempts[t][i].committed && ATTEMPT.within(d.attempts[t][i])
    ensures StorableAttempts(d.attempts)
  {
    hide ATTEMPT, UniqueIds;
    forall t, a | t in d.attempts && a in d.attempts[t]
      ensures StorableAttempt(a, t)
    {
      var i :| 0 <= i < |d.attempts[t]| && d.attempts[t][i] == a;
      assert AttemptOk(d.attempts[t][i], t, d.epoch);
    }
  }

  lemma DurableIsStorable(d: DurableState)
    requires DurableInv(d) && WithinLimits(d) && forall t :: t in d.attempts ==> d.attempts[t] != []
    ensures Storable(d)
  {
    hide InBounds, StorableWorkloads, StorablePlacements, TASK, ATTEMPT, StorableAttempts, AttemptsInv, DepSafe;
    AttemptsStorable(d);
  }

  lemma SnapshotIsStorable(c: Core)
    requires MemoryInv(c) && WithinLimits(Snapshot(c))
    ensures Storable(Snapshot(c))
  {
    hide MemoryInv, WithinLimits, Storable, DurableInv;
    SnapshotInv(c);
    DurableIsStorable(Snapshot(c));
  }

  /** In any reachable state within the limits, a coordinator started on the bytes of the
      saved file comes up under the next epoch and resumes exactly what was saved. */
  lemma RestartFromFile(c: Core, now: Int64, saved: bool)
    requires Reachable(c) && WithinLimits(Snapshot(c)) && Epoch(c) + 1 < TWO_64
    ensures Load(Save(Snapshot(c))) == Ok(Snapshot(c))
    ensures Start(Snapshot(c), now, saved).Ok?
    ensures Resumes(Start(Snapshot(c), now, saved).value, Snapshot(c))
    ensures Epoch(Start(Snapshot(c), now, saved).value) == Epoch(c) + 1
  {
    ReachableInv(c);
    SnapshotIsStorable(c);
    SnapshotInv(c);
    hide Reachable, MemoryInv, DiskInv, Storable, Resumes, Start, WithinLimits, DurableInv, Load, Save;
    StoreRoundTrip(Snapshot(c));
    StartRecovers(Snapshot(c), now, saved);
  }

  /** Cut short anywhere or changed in any one byte, the saved file is refused. */
  lemma DamagedFileRefused(c: Core, k: nat, b: Byte)
    requires Reachable(c) && WithinLimits(Snapshot(c)) && k < |Save(Snapshot(c))| && Save(Snapshot(c))[k] != b
    ensures Load(Save(Snapshot(c))[..k]).Err?
    ensures Load(Save(Snapshot(c))[k := b]).Err?
  {
    var body := Body(Records(Snapshot(c)));
    hide Reachable, Snapshot, Load, Body, Records, StorableWorkloads, StorablePlacements;
    assert |body| < TWO_64;
    PrefixRejected(body, k);
    SingleByteRejected(body, k, b);
  }
}
