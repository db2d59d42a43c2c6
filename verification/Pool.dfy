/** The upload pool of one stream as a transition system: the channel, the workers,
    the list of known chunks, the first failure and the cancellation. */
module Pool {
  import opened Types
  import opened Index

  const WORKERS := 8
  const ROOM := 16
  const MAX_ATTEMPTS := 5

  type Store = map<Digest, Bytes>

  /** A chunk for the pool: the index entry to complete, and the data. */
  datatype Job = Job(idx: nat, data: Bytes)

  /** Where a worker is. Each constructor is one point between two atomic steps. */
  datatype Worker =
    | Idle                              // at the channel receive
    | Took(job: Job)                    // received, the context not yet looked at
    | Hashing(job: Job)                 // the context was live
    | Marking(job: Job)                 // the digest is in the entry; GetOrSet is next
    | Reusing(job: Job)                 // GetOrSet found the digest
    | Retrying(job: Job, tries: nat)    // at the head of retry.Do's loop
    | Uploading(job: Job, tries: nat)   // an attempt is under way
    | Stored(job: Job)                  // the upload returned nil
    | GaveUp(job: Job, code: nat)       // the retries returned an error
    | Recording(job: Job, code: nat)    // about to keep the error in fatalErr
    | Ending(job: Job)                  // about to cancel the context
    | Exited
  {
    predicate Busy() {
      !Idle? && !Exited?
    }

    /** Past its GetOrSet, which marked the digest. */
    predicate Marked() {
      Retrying? || Uploading? || Stored? || GaveUp? || Recording? || Ending?
    }
  }

  /** How one upload attempt ends. A failed one may have reached the server or not. */
  datatype Outcome =
    | Fine
    | Refused(code: nat, reached: bool)
    | Passing(code: nat, reached: bool)

  /** What became of an index entry; a history, read by nobody. */
  datatype Stat =
    | AtWalk
    | Queued(number: nat)
    | Held(worker: nat)
    | Sent
    | Known
    | Skipped
    | Lost
    | Injected

  datatype Pool = Pool(
    initial: set<Digest>,      // the digests of the previous index
    known: set<Digest>,        // knownChunks
    queue: seq<Job>,           // uploadJobs
    closed: bool,
    workers: seq<Worker>,
    cancelled: bool,           // ctx
    fatal: Option<Error>,      // fatalErr
    entries: seq<Entry>,
    pos: nat,
    count: nat,                // chunkcount
    news: nat,                 // this pool's share of newchunk
    reused: nat,               // and of reusechunk
    // History: what the entries were made of and what happened to them.
    chunks: seq<Chunk>,
    stat: seq<Stat>,
    writes: seq<nat>,          // how often each entry's digest was written
    taken: nat,                // jobs received so far
    late: set<nat>,            // entries whose job was received after the cancellation
    marker: map<Digest, nat>,  // the entry whose job marked a digest as known
    sent: seq<Digest>,         // successful uploads
    abandoned: bool)           // stopUploads(true) with workers still alive
  {
    predicate AllExited() {
      forall w :: 0 <= w < |workers| ==> workers[w].Exited?
    }

    predicate Clean() {
      fatal.None? && !abandoned
    }
  }

  function Put<T>(s: seq<T>, i: nat, v: T): seq<T> {
    if i < |s| then s[i := v] else s
  }

  function Started(initial: set<Digest>): Pool {
    Pool(initial, initial, [], false, seq(WORKERS, _ => Idle), false, None, [], 0, 0, 0, 0,
      [], [], [], 0, {}, map[], [], false)
  }

  // ---- The walk's actions ----

  /** Adds a chunk to the index: queue's first half, or a reused chunk. */
  function Append(p: Pool, c: Chunk): Pool {
    match c
    case Fresh(data, _) => AppendEntry(p, c, Zero(), AtWalk, 0)
    case Reused(digest, _) => AppendEntry(p, c, digest, Injected, 1).(reused := p.reused + 1)
  }

  function AppendEntry(p: Pool, c: Chunk, digest: Digest, stat: Stat, writes: nat): Pool {
    p.(entries := p.entries + [Entry(p.pos, c.Size(), digest)],
       pos := p.pos + c.Size(),
       count := p.count + 1,
       chunks := p.chunks + [c],
       stat := p.stat + [stat],
       writes := p.writes + [writes])
  }

  predicate CanPush(p: Pool) {
    |p.queue| < ROOM
  }

  /** queue's second half: the channel send. */
  function Push(p: Pool, data: Bytes): Pool
    requires p.entries != []
  {
    var idx := |p.entries| - 1;
    p.(queue := p.queue + [Job(idx, data)], stat := Put(p.stat, idx, Queued(p.taken + |p.queue|)))
  }

  function Close(p: Pool): Pool {
    p.(closed := true)
  }

  function Cancel(p: Pool): Pool {
    p.(cancelled := true)
  }

  /** stopUploads(true) up to its wait. */
  function Abandon(p: Pool): Pool {
    p.(cancelled := true, closed := true, abandoned := p.abandoned || !p.AllExited())
  }

  // ---- The workers' steps ----

  predicate WorkerEnabled(p: Pool, w: nat) {
    w < |p.workers| && !p.workers[w].Exited? && (p.workers[w].Idle? ==> p.queue != [] || p.closed)
  }

  function Move(p: Pool, w: nat, to: Worker): Pool
    requires w < |p.workers|
  {
    p.(workers := p.workers[w := to])
  }

  function Done(p: Pool, w: nat, idx: nat, stat: Stat): Pool
    requires w < |p.workers|
  {
    p.(workers := p.workers[w := Idle], stat := Put(p.stat, idx, stat))
  }

  function SentNext(hash: Hash, p: Pool, w: nat, job: Job): Pool
    requires w < |p.workers|
  {
    Done(p, w, job.idx, Sent).(news := p.news + 1, sent := p.sent + [hash(job.data)])
  }

  function Receive(p: Pool, w: nat): Pool
    requires w < |p.workers| && p.queue != []
  {
    var job := p.queue[0];
    p.(queue := p.queue[1..],
       taken := p.taken + 1,
       workers := p.workers[w := Took(job)],
       stat := Put(p.stat, job.idx, Held(w)),
       late := if p.cancelled then p.late + {job.idx} else p.late)
  }

  function WriteDigest(p: Pool, w: nat, job: Job, digest: Digest): Pool
    requires w < |p.workers|
  {
    p.(workers := p.workers[w := Marking(job)],
       entries := if job.idx < |p.entries| then p.entries[job.idx := p.entries[job.idx].(digest := digest)] else p.entries,
       writes := if job.idx < |p.writes| then p.writes[job.idx := p.writes[job.idx] + 1] else p.writes)
  }

  /** GetOrSet: one atomic look and mark. */
  function Mark(p: Pool, w: nat, job: Job, digest: Digest): Pool
    requires w < |p.workers|
  {
    if digest in p.known then Move(p, w, Reusing(job))
    else Move(p, w, Retrying(job, 0)).(known := p.known + {digest}, marker := p.marker[digest := job.idx])
  }

  /** Where an attempt leads: a failed one to another, if it passes and one is left. */
  function AfterAttempt(job: Job, tries: nat, o: Outcome): Worker {
    match o
    case Fine => Stored(job)
    case Refused(code, _) => GaveUp(job, code)
    case Passing(code, _) => if tries + 1 < MAX_ATTEMPTS then Retrying(job, tries + 1) else GaveUp(job, code)
  }

  function Reached(store: Store, digest: Digest, data: Bytes, o: Outcome): Store {
    if o.Fine? || o.reached then store[digest := data] else store
  }

  function KeepFirst(fatal: Option<Error>, e: Error): Option<Error> {
    if fatal.None? then Some(e) else fatal
  }

  /** One step of worker w. The outcome is only looked at when an attempt ends. */
  function WorkerNext(hash: Hash, p: Pool, store: Store, w: nat, o: Outcome): (Pool, Store)
    requires WorkerEnabled(p, w)
  {
    match p.workers[w]
    case Idle =>
      if p.queue != [] then (Receive(p, w), store)
      else (Move(p, w, Exited), store)
    case Took(job) =>
      if p.cancelled then (Done(p, w, job.idx, Skipped), store)
      else (Move(p, w, Hashing(job)), store)
    case Hashing(job) =>
      (WriteDigest(p, w, job, hash(job.data)), store)
    case Marking(job) =>
      (Mark(p, w, job, hash(job.data)), store)
    case Reusing(job) =>
      (Done(p, w, job.idx, Known).(reused := p.reused + 1), store)
    case Retrying(job, tries) =>
      if p.cancelled then (Move(p, w, GaveUp(job, 0)), store)
      else (Move(p, w, Uploading(job, tries)), store)
    case Uploading(job, tries) =>
      (Move(p, w, AfterAttempt(job, tries, o)), Reached(store, hash(job.data), job.data, o))
    case Stored(job) =>
      (SentNext(hash, p, w, job), store)
    case GaveUp(job, code) =>
      if p.cancelled then (Done(p, w, job.idx, Lost), store)
      else (Move(p, w, Recording(job, code)), store)
    case Recording(job, code) =>
      (Move(p, w, Ending(job)).(fatal := KeepFirst(p.fatal, UploadFailed(job.idx, code))), store)
    case Ending(job) =>
      (Done(p, w, job.idx, Lost).(cancelled := true), store)
  }

  // ---- The invariant ----

  predicate Shape(p: Pool) {
    && |p.workers| == WORKERS
    && |p.entries| == |p.chunks| == |p.stat| == |p.writes| == p.count
    && |p.queue| <= ROOM
  }

  predicate JobOk(p: Pool, job: Job) {
    job.idx < |p.chunks| && p.chunks[job.idx].Fresh? && p.chunks[job.idx].data == job.data
  }

  /** The recorded offsets and sizes are those of the chunks laid end to end. */
  ghost predicate Offsets(p: Pool)
    requires Shape(p)
  {
    && p.pos == Total(p.chunks)
    && forall i :: 0 <= i < |p.entries| ==>
         p.entries[i].offset == Total(p.chunks[..i]) && p.entries[i].size == p.chunks[i].Size()
  }

  /** Each job is in exactly one place, and its entry's history says where. */
  ghost predicate Places(p: Pool)
    requires Shape(p)
  {
    && (forall q :: 0 <= q < |p.queue| ==>
         JobOk(p, p.queue[q]) && p.stat[p.queue[q].idx] == Queued(p.taken + q))
    && (forall w :: 0 <= w < WORKERS && p.workers[w].Busy() ==>
         JobOk(p, p.workers[w].job) && p.stat[p.workers[w].job.idx] == Held(w))
  }

  ghost predicate StatOk(p: Pool, i: nat)
    requires Shape(p) && i < |p.stat|
  {
    && (p.stat[i].Queued? ==>
         p.taken <= p.stat[i].number < p.taken + |p.queue| && p.queue[p.stat[i].number - p.taken].idx == i)
    && (p.stat[i].Held? ==>
         p.stat[i].worker < WORKERS && p.workers[p.stat[i].worker].Busy() && p.workers[p.stat[i].worker].job.idx == i)
    && (p.stat[i].Injected? <==> p.chunks[i].Reused?)
    && (p.stat[i].AtWalk? ==> i == |p.stat| - 1)
  }

  ghost predicate Stats(p: Pool)
    requires Shape(p)
  {
    forall i :: 0 <= i < |p.stat| ==> StatOk(p, i)
  }

  /** The entry still waits for a worker to write its digest. */
  predicate Unwritten(p: Pool, i: nat)
    requires Shape(p) && i < |p.stat|
  {
    match p.stat[i]
    case AtWalk => true
    case Queued(_) => true
    case Skipped => true
    case Held(w) => w < WORKERS && (p.workers[w].Took? || p.workers[w].Hashing?)
    case _ => false
  }

  /** A digest is written at most once, and what is written is the chunk's. */
  ghost predicate Digests(hash: Hash, p: Pool)
    requires Shape(p)
  {
    forall i :: 0 <= i < |p.entries| ==>
      && p.writes[i] == (if Unwritten(p, i) then 0 else 1)
      && p.entries[i].digest == (if Unwritten(p, i) then Zero() else p.chunks[i].Name(hash))
  }

  /** The entry's job marked its digest as known and was to send it. */
  predicate Marker(p: Pool, i: nat)
    requires Shape(p) && i < |p.stat|
  {
    match p.stat[i]
    case Sent => true
    case Lost => true
    case Held(w) => w < WORKERS && p.workers[w].Marked()
    case _ => false
  }

  /** Known digests are the previous index's and those marked by exactly one job. */
  ghost predicate Marks(hash: Hash, p: Pool)
    requires Shape(p)
  {
    && p.known == p.initial + p.marker.Keys
    && p.initial !! p.marker.Keys
    && (forall d :: d in p.marker ==>
         p.marker[d] < |p.chunks| && p.chunks[p.marker[d]].Name(hash) == d && Marker(p, p.marker[d]))
    && (forall i :: 0 <= i < |p.stat| && Marker(p, i) ==>
         p.chunks[i].Name(hash) in p.marker && p.marker[p.chunks[i].Name(hash)] == i)
  }

  /** Entries done with without sending name a known digest. */
  ghost predicate Reuses(hash: Hash, p: Pool)
    requires Shape(p)
  {
    && (forall i :: 0 <= i < |p.stat| && (p.stat[i].Known? || p.stat[i].Injected?) ==>
         p.chunks[i].Name(hash) in p.known)
    && (forall w :: 0 <= w < WORKERS && p.workers[w].Reusing? ==> hash(p.workers[w].job.data) in p.known)
  }

  /** The successful uploads: no digest twice, and each by the job that marked it. */
  ghost predicate Sends(p: Pool) {
    && (forall d :: d in p.sent <==> d in p.marker && p.marker[d] < |p.stat| && p.stat[p.marker[d]].Sent?)
    && (forall i, j :: 0 <= i < j < |p.sent| ==> p.sent[i] != p.sent[j])
    && p.news == |p.sent|
  }

  /** The context ends, and a job is given up, only after a failure was kept or the
      backup was abandoned. */
  ghost predicate FailStop(p: Pool)
    requires Shape(p)
  {
    && (p.cancelled && p.Clean() ==> p.AllExited())
    && (p.Clean() ==> forall i :: 0 <= i < |p.stat| ==> !p.stat[i].Skipped? && !p.stat[i].Lost?)
    && (forall w :: 0 <= w < WORKERS && p.workers[w].Ending? ==> p.fatal.Some?)
    && (p.abandoned ==> p.cancelled)
    && (forall w :: 0 <= w < WORKERS && p.workers[w].Exited? ==> p.closed && p.queue == [])
  }

  /** A job received after the cancellation is skipped, never sent. */
  ghost predicate LateOk(p: Pool)
    requires Shape(p)
  {
    && (forall i :: i in p.late ==>
         i < |p.stat| && (p.stat[i].Skipped? || (p.stat[i].Held? && p.stat[i].worker < WORKERS && p.workers[p.stat[i].worker].Took?)))
    && (p.late != {} ==> p.cancelled)
  }

  /** What is on the server for this pool. */
  ghost predicate OnServer(hash: Hash, p: Pool, store: Store) {
    && (forall d :: d in p.initial ==> d in store)
    && (forall d :: d in p.sent ==> d in store)
    && (forall w :: 0 <= w < |p.workers| && p.workers[w].Stored? ==> hash(p.workers[w].job.data) in store)
  }

  ghost predicate Attempts(p: Pool) {
    forall w :: 0 <= w < |p.workers| ==>
      (p.workers[w].Retrying? || p.workers[w].Uploading? ==> p.workers[w].tries < MAX_ATTEMPTS)
  }

  function CountSent(stat: seq<Stat>): nat {
    if stat == [] then 0
    else CountSent(stat[..|stat| - 1]) + (if stat[|stat| - 1].Sent? then 1 else 0)
  }

  function CountReused(stat: seq<Stat>): nat {
    if stat == [] then 0
    else CountReused(stat[..|stat| - 1]) + (if stat[|stat| - 1].Known? || stat[|stat| - 1].Injected? then 1 else 0)
  }

  ghost predicate Counts(p: Pool) {
    p.news == CountSent(p.stat) && p.reused == CountReused(p.stat)
  }

  /** The part of the invariant that says where the jobs are. */
  ghost predicate Placed(p: Pool) {
    Shape(p) && Places(p) && Stats(p)
  }

  /** Where the jobs are and what the entries hold. */
  ghost predicate Data(hash: Hash, p: Pool) {
    Placed(p) && Offsets(p) && Digests(hash, p) && Marks(hash, p)
  }

  /** What has been sent, given up and counted. */
  ghost predicate Flow(hash: Hash, p: Pool, store: Store)
    requires Shape(p)
  {
    && Reuses(hash, p) && Sends(p) && FailStop(p) && LateOk(p)
    && OnServer(hash, p, store) && Attempts(p) && Counts(p)
  }

  ghost predicate Inv(hash: Hash, p: Pool, store: Store) {
    Data(hash, p) && Flow(hash, p, store)
  }
}
