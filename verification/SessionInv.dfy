/** The invariant of a session, and that every step keeps it. */
module SessionInv {
  import opened Types
  import opened Index
  import opened Pool
  import opened Session
  import opened PoolSteps
  import PoolProofs
  import PoolResults

  // ---- The invariant ----

  ghost predicate Pools(hash: Hash, s: Session) {
    forall k {:trigger Inv(hash, s.pools[k], s.store)} :: 0 <= k < |s.pools| ==> Inv(hash, s.pools[k], s.store)
  }

  /** Still feeding streams or closing their indexes. */
  predicate InWalk(pc: Pc) {
    pc.Walking? || pc.Looking? || pc.Pushing? || pc.Draining? || pc.Judging? || pc.Assigning? || pc.Sealing?
  }

  predicate InEof(pc: Pc) {
    pc.Draining? || pc.Judging? || pc.Assigning? || pc.Sealing?
  }

  /** No error is on its way out. */
  predicate OnTrack(pc: Pc) {
    !pc.Failed? && (pc.Stopping? || pc.Waiting? ==> pc.end.None?)
  }

  /** How many instructions have had their chunk appended. */
  function Appended(s: Session): nat {
    if s.pc.Pushing? then s.pc.i + 1 else if InWalk(s.pc) then s.pc.i else |s.prog|
  }

  /** Each pool was given the chunks of its stream, in order. */
  ghost predicate Tracked(s: Session)
    requires Wf(s)
  {
    OnTrack(s.pc) ==>
      forall k :: 0 <= k < |s.pools| ==> s.pools[k].chunks == Chunks(s.prog, Appended(s), k)
  }

  /** Only a walk at the channel send holds an entry whose job is not queued yet. */
  ghost predicate Handed(s: Session)
    requires Wf(s)
  {
    && (forall k :: 0 <= k < |s.pools| && !(s.pc.Pushing? && s.prog[s.pc.i].k == k) ==> PoolProofs.Settled(s.pools[k]))
    && (s.pc.Pushing? ==>
         var p, c := s.pools[s.prog[s.pc.i].k], s.prog[s.pc.i].ev.chunk;
         |p.chunks| == |p.stat| > 0 && p.stat[|p.stat| - 1].AtWalk? && p.chunks[|p.chunks| - 1] == c)
  }

  /** The first instruction that has not touched its stream's channel yet. */
  function Untouched(pc: Pc): nat
    requires InWalk(pc)
  {
    if InEof(pc) then pc.i + 1 else pc.i
  }

  /** A stream still to be written is open, its index not requested, its pool not
      abandoned: nothing is ever sent on a closed channel. */
  ghost predicate Opened(s: Session)
    requires Wf(s)
  {
    && (InWalk(s.pc) ==> forall j :: Untouched(s.pc) <= j < |s.prog| ==>
         var k := s.prog[j].k;
         !s.pools[k].closed && s.requested[k] == [] && s.sealed[k].None?)
    && (InWalk(s.pc) || s.pc.Blobs? || s.pc.Manifesting? ==> forall k :: 0 <= k < |s.pools| ==> !s.pools[k].abandoned)
  }

  /** An Eof under way. */
  ghost predicate Closing(s: Session)
    requires Wf(s)
  {
    InEof(s.pc) ==>
      var k := s.prog[s.pc.i].k;
      var p := s.pools[k];
      && p.closed && s.sealed[k].None?
      && (!s.pc.Draining? ==> p.AllExited())
      && (s.pc.Assigning? || s.pc.Sealing? ==> p.fatal.None?)
      && (s.pc.Draining? || s.pc.Judging? ==> s.requested[k] == [])
      && (s.pc.Assigning? ==> s.requested[k] == Batches(Slots(p.entries), s.pc.batch))
      && (s.pc.Sealing? ==> s.requested[k] == Batches(Slots(p.entries), BatchCount(Slots(p.entries))))
  }

  /** A closed index is the whole, serial index of a stream whose pool has finished. */
  ghost predicate SealedWell(hash: Hash, sha: Hash, s: Session, k: nat)
    requires Wf(s) && k < |s.pools|
  {
    var p := s.pools[k];
    && PoolResults.Finished(hash, p, s.store)
    && s.sealed[k] == Some(Closed(Slots(p.entries), Checksum(sha, p.entries), p.pos, p.count))
    && p.chunks == Chunks(s.prog, |s.prog|, k)
  }

  ghost predicate Seals(hash: Hash, sha: Hash, s: Session)
    requires Wf(s)
  {
    forall k {:trigger SealedWell(hash, sha, s, k)} :: 0 <= k < |s.pools| && s.sealed[k].Some? ==> SealedWell(hash, sha, s, k)
  }

  /** Every Eof behind the walk has closed its index. */
  ghost predicate Ended(s: Session)
    requires Wf(s)
  {
    OnTrack(s.pc) ==>
      forall j :: 0 <= j < |s.prog| && s.prog[j].ev.Eof? && (InWalk(s.pc) ==> j < s.pc.i) ==> s.sealed[s.prog[j].k].Some?
  }

  /** The way out stops every pool. */
  ghost predicate Stopped(s: Session)
    requires Wf(s)
  {
    && (s.pc.Stopping? || s.pc.Waiting? ==> forall k :: 0 <= k < s.pc.k ==> s.pools[k].AllExited())
    && (s.pc.Waiting? ==> s.pools[s.pc.k].closed)
    && (s.pc.Finishing? || s.pc.Committed? || s.pc.Failed? ==> forall k :: 0 <= k < |s.pools| ==> s.pools[k].AllExited())
    && (((s.pc.Stopping? || s.pc.Waiting?) && s.pc.end.None?) || s.pc.Finishing? || s.pc.Committed? ==> s.manifest)
  }

  ghost predicate SInv(hash: Hash, sha: Hash, s: Session) {
    && Wf(s) && Pools(hash, s) && Honest(hash, s.store)
    && Tracked(s) && Handed(s) && Opened(s) && Closing(s) && Seals(hash, sha, s) && Ended(s) && Stopped(s)
  }

  // ---- A worker's step, seen from the session ----

  lemma WorkerHonest(hash: Hash, p: Pool, store: Store, w: nat, o: Outcome)
    requires WorkerEnabled(p, w) && Honest(hash, store)
    ensures Honest(hash, WorkerNext(hash, p, store, w, o).1)
  {
  }

  /** The same place in the walk, with pool k moved on and possibly more on the server. */
  ghost predicate Moved(s: Session, k: nat, q: Pool, store: Store, t: Session)
    requires Wf(s)
  {
    && k < |s.pools| && Frame(s.pools[k], q) && !s.pools[k].AllExited()
    && (s.pools[k].stat != [] ==> q.stat[|q.stat| - 1].AtWalk? == s.pools[k].stat[|q.stat| - 1].AtWalk?)
    && t == s.(pools := s.pools[k := q], store := store)
  }

  lemma MovedWf(s: Session, k: nat, q: Pool, store: Store, t: Session)
    requires Wf(s) && Moved(s, k, q, store, t)
    ensures Wf(t)
  {
  }

  lemma MovedPools(hash: Hash, s: Session, k: nat, q: Pool, store: Store, t: Session)
    requires Wf(s) && Pools(hash, s) && Moved(s, k, q, store, t)
    requires Inv(hash, q, store) && s.store.Keys <= store.Keys
    ensures Pools(hash, t)
  {
    forall j | 0 <= j < |t.pools| ensures Inv(hash, t.pools[j], t.store) {
      if j != k {
        PoolProofs.StoreInv(hash, s.pools[j], s.store, store);
      }
    }
  }

  lemma MovedTracked(s: Session, k: nat, q: Pool, store: Store, t: Session)
    requires Wf(s) && Moved(s, k, q, store, t) && Wf(t) && Tracked(s)
    ensures Tracked(t)
  {
  }

  lemma MovedWalk(s: Session, k: nat, q: Pool, store: Store, t: Session)
    requires Wf(s) && Moved(s, k, q, store, t) && Wf(t) && Handed(s) && Opened(s)
    ensures Handed(t) && Opened(t)
  {
  }

  lemma MovedEnd(s: Session, k: nat, q: Pool, store: Store, t: Session)
    requires Wf(s) && Moved(s, k, q, store, t) && Wf(t)
    requires Ended(s) && Stopped(s)
    ensures Ended(t) && Stopped(t)
  {
  }

  lemma MovedEnding(s: Session, k: nat, q: Pool, store: Store, t: Session)
    requires Wf(s) && Moved(s, k, q, store, t) && Wf(t) && Closing(s)
    ensures Closing(t)
  {
  }

  lemma MovedSeals(hash: Hash, sha: Hash, s: Session, k: nat, q: Pool, store: Store, t: Session)
    requires Wf(s) && Moved(s, k, q, store, t) && Wf(t) && Seals(hash, sha, s) && s.store.Keys <= store.Keys
    ensures Seals(hash, sha, t)
  {
    forall j | 0 <= j < |t.pools| && t.sealed[j].Some? ensures SealedWell(hash, sha, t, j) {
      assert SealedWell(hash, sha, s, j);
      assert j != k;
      PoolProofs.StoreInv(hash, s.pools[j], s.store, store);
    }
  }

  lemma WorkStep(hash: Hash, sha: Hash, s: Session, k: nat, w: nat, o: Outcome)
    requires SInv(hash, sha, s) && k < |s.pools| && WorkerEnabled(s.pools[k], w)
    ensures SInv(hash, sha, Next(hash, sha, s, Work(k, w, o)))
  {
    var p := s.pools[k];
    var (q, store) := WorkerNext(hash, p, s.store, w, o);
    var t := Next(hash, sha, s, Work(k, w, o));
    assert Inv(hash, p, s.store);
    PoolProofs.WorkerInv(hash, p, s.store, w, o, q, store);
    WorkerTurns(hash, p, s.store, w, o);
    WorkerSettled(p, w, q);
    WorkerHonest(hash, p, s.store, w, o);
    assert !p.workers[w].Exited?;
    assert Moved(s, k, q, store, t);
    MovedWf(s, k, q, store, t);
    MovedPools(hash, s, k, q, store, t);
    MovedTracked(s, k, q, store, t);
    MovedWalk(s, k, q, store, t);
    MovedEnd(s, k, q, store, t);
    MovedEnding(s, k, q, store, t);
    MovedSeals(hash, sha, s, k, q, store, t);
  }
}
