/** The drivers of one stream: standard input, and the archive writer's calls. */
module StreamBackup {
  import opened Types
  import opened Buzhash
  import opened Pool
  import opened Walk
  import opened ChunkStates

  /** What came with the bytes of one read. */
  datatype ReadEnd = More | AtEof | Broken(code: nat)

  datatype Read = Read(bytes: Bytes, end: ReadEnd)

  /** The input: bytes that come together with its end belong to it. */
  function Input(source: seq<Read>): Bytes {
    if source == [] then []
    else source[0].bytes + (if source[0].end.More? then Input(source[1..]) else [])
  }

  /** How the input ends; a reader with nothing more to give is at its end. */
  function Ending(source: seq<Read>): ReadEnd {
    if source == [] then AtEof
    else if source[0].end.More? then Ending(source[1..]) else source[0].end
  }

  /** The bytes of the first n reads. */
  function Pieces(source: seq<Read>, n: nat): (pieces: seq<Bytes>)
    requires n <= |source|
    ensures |pieces| == n && forall i :: 0 <= i < n ==> pieces[i] == source[i].bytes
  {
    seq(n, i requires 0 <= i < n => source[i].bytes)
  }

  lemma {:induction false} JoinFront(piece: Bytes, pieces: seq<Bytes>)
    ensures Join([piece] + pieces) == piece + Join(pieces)
  {
    var all := [piece] + pieces;
    if pieces == [] {
      assert all[..0] == [] && Join(all) == Join([]) + piece;
    } else {
      JoinFront(piece, pieces[..|pieces| - 1]);
      assert all[..|all| - 1] == [piece] + pieces[..|pieces| - 1];
    }
  }

  /** The input is the bytes of every read up to the first that ends it, that one's too. */
  lemma {:induction false} InputIsAllReads(source: seq<Read>, n: nat)
    requires n < |source| && !source[n].end.More? && forall i :: 0 <= i < n ==> source[i].end.More?
    ensures Input(source) == Join(Pieces(source, n + 1)) && Ending(source) == source[n].end
  {
    var pieces := Pieces(source, n + 1);
    assert pieces == [source[0].bytes] + pieces[1..];
    JoinFront(source[0].bytes, pieces[1..]);
    if n == 0 {
      assert Join(pieces[1..]) == [];
    } else {
      InputIsAllReads(source[1..], n - 1);
      assert pieces[1..] == Pieces(source[1..], n);
    }
  }

  /** The input came to its end, and all of it is in the chunks. */
  ghost predicate HoldsAll(chunks: seq<Chunk>, cfg: Config, start: Walk, input: seq<Read>) {
    && cfg.Valid() && start.Coupled(cfg)
    && Ending(input).AtEof? && chunks == Feed(cfg, start, Input(input)).Cut(Last).chunks
  }

  /** A stream that is read once, from where the last reader left it. */
  class Reader {
    const source: seq<Read>
    var at: nat

    constructor (source: seq<Read>)
      ensures this.source == source && at == 0
    {
      this.source := source;
      at := 0;
    }

    function Rest(): seq<Read>
      reads this
    {
      if at <= |source| then source[at..] else []
    }

    /** One read; a reader with nothing more to give is at its end. */
    method Next() returns (r: Read)
      modifies this
      ensures old(Rest()) == [] ==> r == Read([], AtEof) && Rest() == []
      ensures old(Rest()) != [] ==> r == old(Rest())[0] && Rest() == old(Rest())[1..]
    {
      if at < |source| {
        r := source[at];
        at := at + 1;
      } else {
        r := Read([], AtEof);
      }
    }
  }

  lemma ReadOn(cfg: Config, start: Walk, seen: Bytes, w: Walk, more: Bytes, next: Walk)
    requires cfg.Valid() && start.Coupled(cfg) && w.Coupled(cfg)
    requires w == Feed(cfg, start, seen) && next == Feed(cfg, w, more)
    ensures Feed(cfg, start, seen + more) == next
  {
    FeedConcat(cfg, start, seen, more);
  }

  /** What is left of the input after one more read. */
  lemma InputNext(rest: seq<Read>, r: Read, seen: Bytes)
    requires rest == [] ==> r == Read([], AtEof)
    requires rest != [] ==> r == rest[0]
    ensures r.end.More? ==> rest != [] && (seen + r.bytes) + Input(rest[1..]) == seen + Input(rest)
    ensures r.end.More? ==> Ending(rest[1..]) == Ending(rest)
    ensures !r.end.More? ==> seen + r.bytes == seen + Input(rest) && Ending(rest) == r.end
  {
    if r.end.More? {
      assert Input(rest) == r.bytes + Input(rest[1..]);
    } else if rest != [] {
      assert Input(rest) == r.bytes + [];
    }
  }

  /** HandleData on the bytes of one more read. */
  method Pull(cs: ChunkState, bytes: Bytes, ghost start: Walk, ghost seen: Bytes) returns (err: Option<Error>)
    requires cs.Valid() && start.Coupled(cs.C.cfg) && cs.Abs() == Feed(cs.C.cfg, start, seen)
    modifies cs`pool, cs`current, cs.server`store, cs.C, cs.C.window
    ensures cs.Valid() && cs.C.window == old(cs.C.window)
    ensures if err.None? then cs.Abs() == Feed(cs.C.cfg, start, seen + bytes) else err == cs.pool.fatal
  {
    ghost var before := cs.Abs();
    err := cs.HandleData(bytes);
    if err.None? {
      ReadOn(cs.C.cfg, start, seen, before, bytes, cs.Abs());
    }
  }

  /** The read loop of backup_stream. */
  method ReadAll(cs: ChunkState, reader: Reader) returns (err: Option<Error>)
    requires cs.Valid() && cs.pool.fatal.None?
    modifies cs`pool, cs`current, cs.server`store, cs.C, cs.C.window, reader
    ensures cs.Valid() && cs.C.window == old(cs.C.window)
    ensures old(cs.Abs()).Coupled(cs.C.cfg)
    ensures err.None? ==>
      Ending(old(reader.Rest())).AtEof? && cs.Abs() == Feed(cs.C.cfg, old(cs.Abs()), Input(old(reader.Rest())))
    ensures err.Some? ==>
      var end := Ending(old(reader.Rest()));
      err == cs.pool.fatal || (end.Broken? && err == Some(ReadFailed(end.code)))
  {
    ghost var start, input := cs.Abs(), Input(reader.Rest());
    ghost var seen: Bytes := [];
    while true
      invariant cs.Valid() && cs.C.window == old(cs.C.window)
      invariant cs.Abs() == Feed(cs.C.cfg, start, seen)
      invariant seen + Input(reader.Rest()) == input && Ending(reader.Rest()) == Ending(old(reader.Rest()))
      decreases |reader.Rest()|
    {
      ghost var rest := reader.Rest();
      var r := reader.Next();
      InputNext(rest, r, seen);
      err := Pull(cs, r.bytes, start, seen);
      if err.Some? {
        return;
      }
      seen := seen + r.bytes;
      match r.end {
        case More =>
        case AtEof => return None;
        case Broken(code) => return Some(ReadFailed(code));
      }
    }
  }

  /** The manifest, then the end of the session. */
  method Commit(server: Server) returns (err: Option<Error>)
    requires !server.finished && !server.manifest
    modifies server`manifest, server`finished
    ensures err.None? <==> server.finished
    ensures server.finished ==> server.manifest
  {
    var ok := server.UploadManifest();
    if !ok {
      return Some(ManifestFailed);
    }
    ok := server.Finish();
    err := if ok then None else Some(FinishFailed);
  }

  /** All of the input, and the end of the stream. */
  method Whole(cs: ChunkState, reader: Reader) returns (err: Option<Error>)
    requires cs.Valid() && cs.pool.fatal.None? && cs.server.Untouched()
    modifies cs`pool, cs`current, cs`closes, cs.server`store, cs.server`requested, cs.server`closed, cs.C, cs.C.window, reader
    ensures cs.Ready() && cs.C.window == old(cs.C.window)
    ensures err.None? ==>
      cs.pool.AllExited() && HoldsAll(cs.pool.chunks, cs.C.cfg, old(cs.Abs()), old(reader.Rest()))
    ensures err.None? ==> cs.Sealed()
  {
    err := ReadAll(cs, reader);
    if err.Some? {
      return;
    }
    err := cs.Eof();
  }

  /** The requests of backup_stream, before the deferred stop of the pool. */
  method Streaming(cs: ChunkState, reader: Reader) returns (err: Option<Error>)
    requires cs.Valid() && cs.pool.fatal.None? && cs.server.Untouched()
    modifies cs, cs.server, cs.C, cs.C.window, reader
    ensures cs.Ready() && cs.C.window == old(cs.C.window)
    ensures err.None? <==> cs.server.finished
    ensures cs.server.finished ==> cs.server.manifest
    ensures cs.server.manifest ==>
      cs.pool.AllExited() && HoldsAll(cs.pool.chunks, cs.C.cfg, old(cs.Abs()), old(reader.Rest()))
    ensures cs.server.manifest ==> cs.Sealed()
  {
    err := Whole(cs, reader);
    if err.None? {
      err := Commit(cs.server);
    }
  }

  /** Backs up standard input. The snapshot depends on the bytes alone, not on how the
      reads split them; it is finished only when all of the input is in it; and no
      worker outlives the call. */
  method BackupStream(cs: ChunkState, reader: Reader) returns (err: Option<Error>)
    requires cs.Valid() && cs.pool.fatal.None? && cs.server.Untouched()
    modifies cs, cs.server, cs.C, cs.C.window, reader
    ensures cs.pool.AllExited() && cs.closes == 1
    ensures err.None? <==> cs.server.finished
    ensures cs.server.finished ==>
      cs.server.manifest && cs.Sealed() && HoldsAll(cs.pool.chunks, cs.C.cfg, old(cs.Abs()), old(reader.Rest()))
    ensures cs.server.manifest ==> cs.server.closed.Some?
  {
    err := Streaming(cs, reader);
    cs.StopAtLast();
  }

  // ---- A second try ----

  /** The answer to a session's first request. */
  datatype Reply = Accepted | SecondTaken | Declined(code: nat)

  datatype StreamError = TimeTaken | Other(err: Error)

  /** The client that streams are backed up through. */
  class Host {
    const hash: Hash
    const sha: Hash
    const table: seq<bv32>
    const previous: set<Digest>       // the digests of the previous index
    const store: Store                // the chunks on the server
    var latest: Option<ChunkState>    // the stream last started
    var tries: seq<Option<StreamError>>
    var closes: nat

    constructor (hash: Hash, sha: Hash, table: seq<bv32>, previous: set<Digest>, store: Store)
      requires |table| == 256 && previous <= store.Keys
      ensures Valid() && Quiet() && tries == [] && closes == 0
      ensures this.hash == hash && this.sha == sha && this.table == table
    {
      this.hash := hash;
      this.sha := sha;
      this.table := table;
      this.previous := previous;
      this.store := store;
      latest := None;
      tries := [];
      closes := 0;
    }

    predicate Valid() {
      |table| == 256 && previous <= store.Keys
    }

    /** No worker of a stream started on this client is alive. */
    ghost predicate Quiet()
      reads this, if latest.Some? then {latest.value} else {}
    {
      latest.Some? ==> latest.value.pool.AllExited()
    }

    /** The client is only ever closed when nobody is sending through it. */
    method Close()
      requires Quiet()
      modifies this`closes
      ensures closes == old(closes) + 1
    {
      closes := closes + 1;
    }
  }

  /** The stream's snapshot holds all of the input. */
  ghost predicate Backed(cs: ChunkState, table: seq<bv32>, input: seq<Read>)
    requires |table| == 256
    reads cs, cs.server
  {
    && cs.server.finished && cs.server.manifest && cs.Sealed()
    && HoldsAll(cs.pool.chunks, ForAverage(AVERAGE, table), Start(seq(WINDOW, _ => 0)), input)
  }

  /** backup_stream with its first requests. A session starts only when nobody is sending
      through the client; a refused one has read none of the input. */
  method StreamTry(host: Host, reader: Reader) returns (err: Option<StreamError>)
    requires host.Valid() && host.Quiet()
    modifies host, reader
    ensures host.Quiet() && host.closes == old(host.closes) && host.tries == old(host.tries) + [err]
    ensures err == Some(TimeTaken) ==> reader.at == old(reader.at)
    ensures err.None? ==> host.latest.Some? && Backed(host.latest.value, host.table, old(reader.Rest()))
  {
    var reply: Reply := *;
    match reply {
      case SecondTaken => err := Some(TimeTaken);
      case Declined(code) => err := Some(Other(RequestFailed(code)));
      case Accepted =>
        var server := new Server(host.store);
        var cs := new ChunkState(host.hash, host.sha, server, host.previous, host.table);
        var failed := BackupStream(cs, reader);
        host.latest := Some(cs);
        err := if failed.Some? then Some(Other(failed.value)) else None;
    }
    host.tries := host.tries + [err];
  }

  /** backupStreamOnce: a second try exactly after a refusal for a second already taken,
      which has read nothing, so that the snapshot still holds all of the input. The
      client is closed in between, and at neither moment is anybody sending. */
  method BackupStreamOnce(host: Host, reader: Reader) returns (err: Option<StreamError>)
    requires host.Valid() && host.Quiet() && host.tries == [] && host.closes == 0
    modifies host, reader
    ensures host.Quiet() && |host.tries| == host.closes + 1 <= 2 && err == host.tries[host.closes]
    ensures host.closes == 1 <==> host.tries[0] == Some(TimeTaken)
    ensures err.None? ==> host.latest.Some? && Backed(host.latest.value, host.table, old(reader.Rest()))
  {
    err := StreamTry(host, reader);
    if err == Some(TimeTaken) {
      host.Close();
      err := StreamTry(host, reader);
    }
  }

  /** One call of the archive writer. */
  method Do(cs: ChunkState, op: Op) returns (err: Option<Error>)
    requires cs.Valid() && cs.Abs().Coupled(cs.C.cfg)
    modifies cs`pool, cs`current, cs.server`store, cs.C, cs.C.window
    ensures cs.Valid() && cs.C.window == old(cs.C.window)
    ensures err.None? ==> Legal(old(cs.Abs()), op) && cs.Abs() == Apply(cs.C.cfg, old(cs.Abs()), op)
  {
    match op {
      case Data(bytes) =>
        err := cs.HandleData(bytes);
        assert err.None? ==> cs.Abs() == Apply(cs.C.cfg, old(cs.Abs()), op);
      case Suggest => err := cs.SuggestBoundary();
      case Force => err := cs.ForceBoundary();
      case Inject(digest, size) =>
        err := cs.InjectKnownChunk(digest, size);
        assert err.None? ==> cs.Abs() == Apply(cs.C.cfg, old(cs.Abs()), op);
    }
  }

  lemma OneMoreOp(cfg: Config, start: Walk, ops: seq<Op>, i: nat)
    requires cfg.Valid() && start.Coupled(cfg) && i < |ops| && AllLegal(cfg, start, ops[..i])
    requires Legal(ApplyAll(cfg, start, ops[..i]), ops[i])
    ensures AllLegal(cfg, start, ops[..i + 1])
    ensures ApplyAll(cfg, start, ops[..i + 1]) == Apply(cfg, ApplyAll(cfg, start, ops[..i]), ops[i])
  {
    assert ops[..i + 1][..i] == ops[..i];
  }

  /** The archive writer's calls on one stream. */
  method DoAll(cs: ChunkState, ops: seq<Op>) returns (err: Option<Error>)
    requires cs.Valid() && cs.pool.fatal.None?
    modifies cs`pool, cs`current, cs.server`store, cs.C, cs.C.window
    ensures cs.Valid() && cs.C.window == old(cs.C.window) && old(cs.Abs()).Coupled(cs.C.cfg)
    ensures err.None? ==>
      AllLegal(cs.C.cfg, old(cs.Abs()), ops) && cs.Abs() == ApplyAll(cs.C.cfg, old(cs.Abs()), ops)
  {
    ghost var start := cs.Abs();
    for i := 0 to |ops|
      invariant cs.Valid() && cs.C.window == old(cs.C.window)
      invariant AllLegal(cs.C.cfg, start, ops[..i]) && cs.Abs() == ApplyAll(cs.C.cfg, start, ops[..i])
    {
      err := Do(cs, ops[i]);
      if err.Some? {
        return;
      }
      OneMoreOp(cs.C.cfg, start, ops, i);
    }
    assert ops[..|ops|] == ops;
    err := None;
  }

  /** The archive writer's calls on one stream, and its Eof: the index that gets closed
      is that of the calls, taken one by one. */
  method Archive(cs: ChunkState, ops: seq<Op>) returns (err: Option<Error>)
    requires cs.Valid() && cs.pool.fatal.None? && cs.server.Untouched()
    modifies cs, cs.server, cs.C, cs.C.window
    ensures cs.Ready() && old(cs.Abs()).Coupled(cs.C.cfg)
    ensures err.None? ==> AllLegal(cs.C.cfg, old(cs.Abs()), ops)
    ensures err.None? ==>
      cs.pool.chunks == ApplyAll(cs.C.cfg, old(cs.Abs()), ops).Cut(Last).chunks
    ensures err.None? ==> cs.Sealed()
    ensures err.Some? ==> cs.server.closed.None?
  {
    err := DoAll(cs, ops);
    if err.None? {
      err := cs.Eof();
    }
  }
}
